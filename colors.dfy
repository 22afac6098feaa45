/** The named colours of the visualiser's palette. Only their identity and
    order matter to the model; colors.ts is not part of this model, so the
    colours are names rather than hex values. */
module Colors {

  datatype Color =
    | TeaGreen | StrawberryRed | SkyBlue | PlumMagenta
    | AshGray | SunYellow | RamuneCyan | SlateGray

  /** One colour per force plate, in plate order. */
  const ForcePlateColors: seq<Color> := [TeaGreen, StrawberryRed, SkyBlue, PlumMagenta]
}
