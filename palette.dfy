/** The brick colours shared by the game. */
module Palette {
  datatype Rgb = Rgb(r: int, g: int, b: int)

  const Red: Rgb := Rgb(255, 0, 0)
  const Orange: Rgb := Rgb(255, 128, 0)
  const Yellow: Rgb := Rgb(255, 255, 0)
  const Green: Rgb := Rgb(0, 255, 0)
  const Blue: Rgb := Rgb(0, 0, 255)
  const Purple: Rgb := Rgb(180, 0, 255)
  const Cyan: Rgb := Rgb(0, 255, 255)

  /** `COLORS`: the order in which rows and colour indices pick a colour. */
  const Colors: seq<Rgb> := [Red, Orange, Yellow, Green, Blue, Purple, Cyan]
}
