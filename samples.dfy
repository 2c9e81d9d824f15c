/** The raw forecast entries the two forecast components read, and small shared helpers. */
module Samples {

  datatype Option<+T> = None | Some(value: T)

  /**
   * One entry of the provider's forecast `list`, reduced to the fields the
   * forecast components read:
   *   dt          `item.dt`, epoch seconds
   *   dtText      `item.dt_txt`, the provider's text form of the same instant
   *   temp        `item.main.temp`, in provider units
   *   icon        `item.weather[0].icon`
   *   description `item.weather[0].description`
   */
  datatype Sample = Sample(dt: int, dtText: string, temp: real, icon: string, description: string)

  /** The smaller of two integers: `s.slice(0, n)` keeps `Min(n, |s|)` elements. */
  function Min(a: int, b: int): int
  {
    if a <= b then a else b
  }
}
