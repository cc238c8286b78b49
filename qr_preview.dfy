/**
 * The preview: what the component hands to the external QR encoder. The
 * encoder itself is not modelled; only the text and the options given to it.
 */
module QRPreview {
  import opened Types

  /** Width, in modules, of the quiet zone drawn when the margin is on. */
  const QuietZone: nat := 4

  datatype Colors = Colors(dark: string, light: string)

  /** The options object of the raster path (canvas and PNG data URL). */
  datatype RasterOptions = RasterOptions(width: int, margin: nat, color: Colors, errorCorrectionLevel: Level)

  /** The options object of the SVG path; `format` is its `type` member. */
  datatype SvgOptions = SvgOptions(format: string, width: int, margin: nat, color: Colors, errorCorrectionLevel: Level)

  /** One call of the encoder: the text to encode and the options. */
  datatype Request<O> = Request(text: string, options: O)

  /** The quiet zone for a margin flag. */
  function MarginOf(includeMargin: bool): (margin: nat)
    ensures margin == QuietZone <==> includeMargin
    ensures margin == 0 <==> !includeMargin
  {
    if includeMargin then QuietZone else 0
  }

  /** `config.value || ' '`: the encoder never receives an empty string. */
  function EncodedText(cfg: QRConfig): (text: string)
    ensures text != ""
    ensures cfg.value != "" ==> text == cfg.value
    ensures cfg.value == "" ==> text == " "
  {
    if cfg.value == "" then " " else cfg.value
  }

  /** The options built before rendering to the canvas and to the PNG data URL. */
  function RasterOptionsOf(cfg: QRConfig): RasterOptions {
    RasterOptions(cfg.size, MarginOf(cfg.includeMargin), Colors(cfg.fgColor, cfg.bgColor), cfg.level)
  }

  /** The options built, separately, for the SVG download. */
  function SvgOptionsOf(cfg: QRConfig): SvgOptions {
    SvgOptions("svg", cfg.size, MarginOf(cfg.includeMargin), Colors(cfg.fgColor, cfg.bgColor), cfg.level)
  }

  /** The canvas render and the PNG data URL are the same encoder call. */
  function RasterRequest(cfg: QRConfig): Request<RasterOptions> {
    Request(EncodedText(cfg), RasterOptionsOf(cfg))
  }

  function SvgRequest(cfg: QRConfig): Request<SvgOptions> {
    Request(EncodedText(cfg), SvgOptionsOf(cfg))
  }

  /** The two configurations agree on every field except, possibly, the content. */
  predicate SameAppearance(a: QRConfig, b: QRConfig) {
    && a.size == b.size
    && a.fgColor == b.fgColor
    && a.bgColor == b.bgColor
    && a.level == b.level
    && a.includeMargin == b.includeMargin
  }

  /**
   * The raster options pass size, colours and tier through and encode the
   * margin flag as 4 or 0: they are equal for two configurations exactly when
   * the configurations look the same, whatever their content.
   */
  lemma RasterOptionsExact(cfg: QRConfig, other: QRConfig)
    ensures RasterOptionsOf(cfg).width == cfg.size
    ensures RasterOptionsOf(cfg).margin == (if cfg.includeMargin then 4 else 0)
    ensures RasterOptionsOf(cfg).color == Colors(cfg.fgColor, cfg.bgColor)
    ensures RasterOptionsOf(cfg).errorCorrectionLevel == cfg.level
    ensures RasterOptionsOf(cfg) == RasterOptionsOf(other) <==> SameAppearance(cfg, other)
  {
  }

  /** The SVG download uses the same width, margin, colours and tier as the raster image. */
  lemma SvgMatchesRaster(cfg: QRConfig)
    ensures SvgRequest(cfg).text == RasterRequest(cfg).text
    ensures var svg, png := SvgOptionsOf(cfg), RasterOptionsOf(cfg);
      && svg.format == "svg"
      && svg.width == png.width
      && svg.margin == png.margin
      && svg.color == png.color
      && svg.errorCorrectionLevel == png.errorCorrectionLevel
  {
  }

  /**
   * Two contents reach the encoder as the same text exactly when they are
   * equal, or one is empty and the other is a single space.
   */
  lemma EncodedTextCollisions(a: QRConfig, b: QRConfig)
    ensures EncodedText(a) == EncodedText(b) <==>
      a.value == b.value || (a.value == "" && b.value == " ") || (a.value == " " && b.value == "")
  {
  }

  /** An empty content and a single space give the same encoder call. */
  lemma EmptyRendersAsSpace(cfg: QRConfig)
    ensures RasterRequest(cfg.(value := "")) == RasterRequest(cfg.(value := " "))
    ensures SvgRequest(cfg.(value := "")) == SvgRequest(cfg.(value := " "))
  {
  }
}
