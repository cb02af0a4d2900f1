/** The width of rt_tick_t. */
module TickTime {
  const TICKS: nat := 0x1_0000_0000
  const HALF: nat := 0x7FFF_FFFF          // RT_TICK_MAX / 2
}
