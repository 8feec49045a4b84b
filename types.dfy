/** The application's shared types: aspect ratios, generator modes and uploaded images. */
module Types {
  import opened Wrappers

  /** The supported output shapes. */
  datatype AspectRatio = Square | Portrait | Landscape | Story | Widescreen

  /** Every aspect ratio, in declaration order. */
  const AllAspectRatios: seq<AspectRatio> := [Square, Portrait, Landscape, Story, Widescreen]

  /** The string value of each enum member, as sent to the image service. */
  function AspectRatioWire(r: AspectRatio): (s: string)
    ensures |s| >= 3 && ':' in s
    ensures forall i :: 0 <= i < |s| ==> s[i] == ':' || '0' <= s[i] <= '9'
  {
    match r
    case Square => "1:1"
    case Portrait => "3:4"
    case Landscape => "4:3"
    case Story => "9:16"
    case Widescreen => "16:9"
  }

  /** The aspect ratio whose string value is `s`, if there is one. */
  function ParseAspectRatio(s: string): (r: Option<AspectRatio>)
    ensures r.Some? ==> AspectRatioWire(r.value) == s
  {
    if s == "1:1" then Some(Square)
    else if s == "3:4" then Some(Portrait)
    else if s == "4:3" then Some(Landscape)
    else if s == "9:16" then Some(Story)
    else if s == "16:9" then Some(Widescreen)
    else None
  }

  /** There are exactly five aspect ratios, with pairwise distinct string values. */
  lemma AspectRatioEnumeration()
    ensures |AllAspectRatios| == 5
    ensures forall r: AspectRatio :: r in AllAspectRatios
    ensures forall i, j :: 0 <= i < j < |AllAspectRatios| ==>
      AspectRatioWire(AllAspectRatios[i]) != AspectRatioWire(AllAspectRatios[j])
  {
    forall r: AspectRatio
      ensures r in AllAspectRatios
    {
      match r
      case Square => assert AllAspectRatios[0] == r;
      case Portrait => assert AllAspectRatios[1] == r;
      case Landscape => assert AllAspectRatios[2] == r;
      case Story => assert AllAspectRatios[3] == r;
      case Widescreen => assert AllAspectRatios[4] == r;
    }
  }

  /** Parsing the string value of a ratio gives the ratio back. */
  lemma ParseAspectRatioWire(r: AspectRatio)
    ensures ParseAspectRatio(AspectRatioWire(r)) == Some(r)
  {
  }

  /** The decimal digits of `n`, most significant first, without leading zeros. */
  function Decimal(n: nat): (s: string)
    ensures |s| >= 1
    ensures n > 0 ==> s[0] != '0'
    ensures forall i :: 0 <= i < |s| ==> '0' <= s[i] <= '9'
  {
    if n < 10 then ["0123456789"[n]] else Decimal(n / 10) + ["0123456789"[n % 10]]
  }

  /** The width and height a ratio names: its string value is `W:H` with positive `W` and `H`. */
  function Dimensions(r: AspectRatio): (wh: (nat, nat))
    ensures wh.0 > 0 && wh.1 > 0
    ensures AspectRatioWire(r) == Decimal(wh.0) + ":" + Decimal(wh.1)
  {
    match r
    case Square => (1, 1)
    case Portrait => (3, 4)
    case Landscape => (4, 3)
    case Story => (9, 16)
    case Widescreen => (16, 9)
  }

  /** The three ways of producing an image. */
  datatype GeneratorMode = Catalog | Creative | Edit

  /** Each mode's string value is its own name. */
  function ModeWire(m: GeneratorMode): (s: string)
    ensures |s| > 0
    ensures forall i :: 0 <= i < |s| ==> 'A' <= s[i] <= 'Z'
  {
    match m
    case Catalog => "CATALOG"
    case Creative => "CREATIVE"
    case Edit => "EDIT"
  }

  /** The mode whose string value is `s`, if there is one. */
  function ParseMode(s: string): (m: Option<GeneratorMode>)
    ensures m.Some? ==> ModeWire(m.value) == s
  {
    if s == "CATALOG" then Some(Catalog)
    else if s == "CREATIVE" then Some(Creative)
    else if s == "EDIT" then Some(Edit)
    else None
  }

  /** Parsing the string value of a mode gives the mode back; the three values are distinct. */
  lemma ParseModeWire(m: GeneratorMode)
    ensures ParseMode(ModeWire(m)) == Some(m)
    ensures forall m': GeneratorMode :: m' != m ==> ModeWire(m') != ModeWire(m)
  {
  }

  /** The prefix of a base64 data URL of media type `mime` (section 3 of RFC 2397). */
  function DataUrlPrefix(mime: string): string
  {
    "data:" + mime + ";base64,"
  }

  /** The browser `File` a user picked: its name and its declared MIME type (possibly empty). */
  datatype RawFile = RawFile(name: string, mimeType: string)

  /** An uploaded image: the file, a preview data URL, the data URL sent on, and its MIME type. */
  datatype ImageFile = ImageFile(file: RawFile, preview: string, base64: string, mimeType: string)
}
