/** Value types shared by abilities and characters (include/stardust/types.hpp). */
module Types {

  const INT32_MIN: int := -0x8000_0000
  const INT32_MAX: int := 0x7fff_ffff

  /** `stat_value_t` is a signed 32-bit integer. */
  type StatValue = x: int | INT32_MIN <= x <= INT32_MAX

  predicate InInt32(x: int) {
    INT32_MIN <= x <= INT32_MAX
  }

  /**
   * One additive contribution to a stat. The originator is a non-owning
   * reference to the ability that created the record; nothing reads it, and
   * removal goes by `id` alone.
   */
  datatype ModifierInfo = ModifierInfo(value: StatValue, id: string, originator: object?)

  /** The value-initialised record: `modifier_info{}`. */
  function DefaultModifierInfo(): (r: ModifierInfo)
    ensures r.value == 0 && r.id == "" && r.originator == null
  {
    ModifierInfo(0, "", null)
  }

  datatype Option<+T> = None | Some(value: T)

  /** `std::map::at` throws `std::out_of_range` for a missing key. */
  datatype Error = NotFound

  datatype Result<+T> = Ok(value: T) | Err(error: Error)
}
