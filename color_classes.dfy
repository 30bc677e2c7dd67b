/**
 * `getColorClass` of the benefits section: the Tailwind class of a given kind
 * (background, text or border) for one of the six card colours.
 */
module ColorClasses {
  import opened Wrappers

  /** The `type` argument of the lookup. */
  datatype ClassKind = Bg | Text | Border

  function KindName(k: ClassKind): string {
    match k
    case Bg => "bg"
    case Text => "text"
    case Border => "border"
  }

  /** One entry of `colorMap`: the `bg`, `text` and `border` classes of a colour. */
  datatype ColorClasses = ColorClasses(bg: string, text: string, border: string) {
    function Get(k: ClassKind): string {
      match k
      case Bg => bg
      case Text => text
      case Border => border
    }
  }

  /** `colorMap`. */
  const ColorMap: map<string, ColorClasses> := map[
    "blue" := ColorClasses("bg-blue-500", "text-blue-500", "border-blue-500"),
    "green" := ColorClasses("bg-green-500", "text-green-500", "border-green-500"),
    "purple" := ColorClasses("bg-purple-500", "text-purple-500", "border-purple-500"),
    "indigo" := ColorClasses("bg-indigo-500", "text-indigo-500", "border-indigo-500"),
    "pink" := ColorClasses("bg-pink-500", "text-pink-500", "border-pink-500"),
    "amber" := ColorClasses("bg-amber-500", "text-amber-500", "border-amber-500")
  ]

  /** The six colours the site uses. */
  const Palette: set<string> := {"blue", "green", "purple", "indigo", "pink", "amber"}

  /**
   * `getColorClass(color, type)`, which reads `colorMap[color][type]`. For a
   * colour that is not one of the six keys there is no class: `None` stands
   * both for the throw (the outer lookup is `undefined`) and for the
   * `undefined` result that names inherited from `Object.prototype`, such as
   * `toString` or `constructor`, produce.
   */
  function GetColorClass(color: string, kind: ClassKind): (c: Option<string>)
    ensures c.Some? <==> color in Palette
  {
    if color in ColorMap then Some(ColorMap[color].Get(kind)) else None
  }

  /** The entry a colour would have if it followed the `<kind>-<colour>-500` naming. */
  function Conventional(color: string): ColorClasses {
    ColorClasses("bg-" + color + "-500", "text-" + color + "-500", "border-" + color + "-500")
  }

  /** Each entry of the map, one colour at a time, follows the naming convention. */
  lemma BlueIsConventional() ensures ColorMap["blue"] == Conventional("blue") {}
  lemma GreenIsConventional() ensures ColorMap["green"] == Conventional("green") {}
  lemma PurpleIsConventional() ensures ColorMap["purple"] == Conventional("purple") {}
  lemma IndigoIsConventional() ensures ColorMap["indigo"] == Conventional("indigo") {}
  lemma PinkIsConventional() ensures ColorMap["pink"] == Conventional("pink") {}
  lemma AmberIsConventional() ensures ColorMap["amber"] == Conventional("amber") {}

  /** Every entry of the map follows the naming convention. */
  lemma MapIsConventional(color: string)
    requires color in Palette
    ensures color in ColorMap
    ensures ColorMap[color] == Conventional(color)
  {
    if color == "blue" {
      BlueIsConventional();
    } else if color == "green" {
      GreenIsConventional();
    } else if color == "purple" {
      PurpleIsConventional();
    } else if color == "indigo" {
      IndigoIsConventional();
    } else if color == "pink" {
      PinkIsConventional();
    } else {
      AmberIsConventional();
    }
  }

  /** The class for a known colour is `<kind>-<colour>-500`. */
  lemma ColorClassFormat(color: string, kind: ClassKind)
    requires color in Palette
    ensures GetColorClass(color, kind) == Some(KindName(kind) + "-" + color + "-500")
  {
    MapIsConventional(color);
    match kind
    case Bg => assert "bg-" + color + "-500" == KindName(kind) + "-" + color + "-500";
    case Text => assert "text-" + color + "-500" == KindName(kind) + "-" + color + "-500";
    case Border => assert "border-" + color + "-500" == KindName(kind) + "-" + color + "-500";
  }
}
