/** The calibration record shared with the elographics X input driver.
    In the driver's protocol it is ten consecutive native C ints in the order
    declared below; here it is an object whose fields are updated in place,
    standing for the mapped shared-memory segment. */
module EloShm {

  class EloShmRec {
    /** Magic number matched against the driver's (C name `version`). */
    var version: int
    /** Last raw X and Y reported by the touch controller; written by the driver (`cur_x`, `cur_y`). */
    var curX: int
    var curY: int
    /** The four calibration bounds this tool computes (`min_x`, `max_x`, `min_y`, `max_y`). */
    var minX: int
    var maxX: int
    var minY: int
    var maxY: int
    /** Driver-owned settings this tool never writes (`swap_axes`, `untouch_delay`, `report_delay`). */
    var swapAxes: int
    var untouchDelay: int
    var reportDelay: int

    constructor (version: int, curX: int, curY: int, minX: int, maxX: int,
                 minY: int, maxY: int, swapAxes: int, untouchDelay: int, reportDelay: int)
      ensures this.version == version && this.curX == curX && this.curY == curY
      ensures this.minX == minX && this.maxX == maxX && this.minY == minY && this.maxY == maxY
      ensures this.swapAxes == swapAxes && this.untouchDelay == untouchDelay
      ensures this.reportDelay == reportDelay
    {
      this.version, this.curX, this.curY := version, curX, curY;
      this.minX, this.maxX, this.minY, this.maxY := minX, maxX, minY, maxY;
      this.swapAxes, this.untouchDelay, this.reportDelay := swapAxes, untouchDelay, reportDelay;
    }

    /** Between the old state and now, the six fields owned by the driver
        kept their values: only the four bounds may have changed. */
    twostate predicate OnlyBoundsChanged()
      reads this
    {
      && version == old(version)
      && curX == old(curX) && curY == old(curY)
      && swapAxes == old(swapAxes)
      && untouchDelay == old(untouchDelay) && reportDelay == old(reportDelay)
    }
  }
}
