/** Display-name selection by interface language, the bilingual table of
    content-type names, and the colour classes of each content type. */
module LanguageUtils {
  import opened Wrappers

  datatype Language = En | He

  /** The two names every catalogue record (dance, choreographer, artist,
      song, dance type) carries; a missing Hebrew name is the empty
      string. */
  datatype Named = Named(nameEng: string, nameHeb: string)

  /** `{ en, he }` */
  datatype Texts = Texts(en: string, he: string)

  const UnknownName: string := "Unknown"

  /** The rule `get{Dance,Choreographer,Artist,Song}DisplayName` share:
      nothing gives "Unknown"; in Hebrew a non-empty Hebrew name wins;
      otherwise the English name, or "Unknown" when that is empty. */
  function DisplayName(x: Option<Named>, language: Language): (r: string)
    ensures r != ""
    ensures x.None? ==> r == UnknownName
    ensures x.Some? && language == He && x.value.nameHeb != "" ==> r == x.value.nameHeb
    ensures x.Some? && !(language == He && x.value.nameHeb != "") ==>
      r == if x.value.nameEng != "" then x.value.nameEng else UnknownName
  {
    if x.None? then UnknownName
    else if language == He && x.value.nameHeb != "" then x.value.nameHeb
    else if x.value.nameEng != "" then x.value.nameEng
    else UnknownName
  }

  /** In English the Hebrew name is never consulted. */
  lemma EnglishIgnoresHebrew(x: Named, otherHeb: string)
    ensures DisplayName(Some(x), En) == DisplayName(Some(x.(nameHeb := otherHeb)), En)
  {
  }

  /** `texts[language] || texts.en` */
  function LanguageText(texts: Texts, language: Language): (r: string)
    ensures language == En ==> r == texts.en
    ensures language == He ==> r == (if texts.he != "" then texts.he else texts.en)
  {
    var chosen := if language == En then texts.en else texts.he;
    if chosen != "" then chosen else texts.en
  }

  /** `UI_TEXT.contentTypes` */
  const ContentTypes: map<string, Texts> := map[
    "SESSION" := Texts("Session", "מפגש"),
    "IMITATION_FOR_CHILDREN" := Texts("Imitation for children", "חיקוי לילדים"),
    "WHEELCHAIRS" := Texts("Wheelchairs", "כיסאות גלגלים"),
    "CHILDREN_LINES" := Texts("Children - lines", "ילדים - שורות"),
    "TRIOS" := Texts("Trios", "שלישיות"),
    "MEDLEY" := Texts("Medley", "מדליי"),
    "CHILDREN_COUPLES" := Texts("Children - couples", "ילדים - זוגות"),
    "CHILDREN_CIRCLE" := Texts("Children - circle", "ילדים - מעגל"),
    "PERFORMANCE" := Texts("Performance", "הופעה"),
    "DANCE_DELIGHT" := Texts("Content delight", "עונג תוכן"),
    "LINES" := Texts("Lines", "שורות"),
    "COUPLES" := Texts("Couples", "זוגות"),
    "CIRCLE" := Texts("Circle", "מעגל")
  ]

  /** Every content type has a non-empty name in both languages, so a
      lookup through the table never falls back to English and never
      yields an empty name. */
  lemma ContentTypesAreComplete()
    ensures forall k :: k in ContentTypes ==> ContentTypes[k].en != "" && ContentTypes[k].he != ""
  {
  }

  /** `getDanceTypeDisplayName`: a dance type whose English name is a
      table key is named from the table; any other falls back to the
      common rule. */
  function DanceTypeDisplayName(x: Option<Named>, language: Language): (r: string)
    ensures r != ""
    ensures x.Some? && x.value.nameEng in ContentTypes ==>
      r == (if language == He then ContentTypes[x.value.nameEng].he else ContentTypes[x.value.nameEng].en)
    ensures !(x.Some? && x.value.nameEng in ContentTypes) ==> r == DisplayName(x, language)
  {
    if x.Some? && x.value.nameEng in ContentTypes then
      ContentTypesAreComplete();
      LanguageText(ContentTypes[x.value.nameEng], language)
    else DisplayName(x, language)
  }

  const DefaultColor: string := "bg-gray-100 text-gray-800"
  const DefaultBorderColor: string := "border-gray-300"

  /** `getDanceTypeColor`: an absent or empty name, or one outside the
      table, is gray. */
  function DanceTypeColor(name: Option<string>): (r: string)
    ensures r != ""
  {
    if name.None? || name.value == "" then DefaultColor
    else
      match name.value
      case "SESSION" => "bg-blue-100 text-blue-800"
      case "IMITATION_FOR_CHILDREN" => "bg-pink-100 text-pink-800"
      case "WHEELCHAIRS" => "bg-purple-100 text-purple-800"
      case "CHILDREN_LINES" => "bg-yellow-100 text-yellow-800"
      case "TRIOS" => "bg-indigo-100 text-indigo-800"
      case "MEDLEY" => "bg-orange-100 text-orange-800"
      case "CHILDREN_COUPLES" => "bg-rose-100 text-rose-800"
      case "CHILDREN_CIRCLE" => "bg-cyan-100 text-cyan-800"
      case "PERFORMANCE" => "bg-red-100 text-red-800"
      case "DANCE_DELIGHT" => "bg-emerald-100 text-emerald-800"
      case "LINES" => "bg-teal-100 text-teal-800"
      case "COUPLES" => "bg-violet-100 text-violet-800"
      case "CIRCLE" => "bg-green-100 text-green-800"
      case _ => DefaultColor
  }

  /** `getDanceTypeBorderColor`, the same keys with border classes. */
  function DanceTypeBorderColor(name: Option<string>): (r: string)
    ensures r != ""
  {
    if name.None? || name.value == "" then DefaultBorderColor
    else
      match name.value
      case "SESSION" => "border-blue-500"
      case "IMITATION_FOR_CHILDREN" => "border-pink-500"
      case "WHEELCHAIRS" => "border-purple-500"
      case "CHILDREN_LINES" => "border-yellow-500"
      case "TRIOS" => "border-indigo-500"
      case "MEDLEY" => "border-orange-500"
      case "CHILDREN_COUPLES" => "border-rose-500"
      case "CHILDREN_CIRCLE" => "border-cyan-500"
      case "PERFORMANCE" => "border-red-500"
      case "DANCE_DELIGHT" => "border-emerald-500"
      case "LINES" => "border-teal-500"
      case "COUPLES" => "border-violet-500"
      case "CIRCLE" => "border-green-500"
      case _ => DefaultBorderColor
  }

  /** Both colour functions single out exactly the content types of the
      name table: a name gets a non-gray colour iff it gets a non-gray
      border iff it is a table key. */
  lemma ColorsRecogniseTheTableKeys(name: Option<string>)
    ensures DanceTypeColor(name) != DefaultColor <==> name.Some? && name.value in ContentTypes
    ensures DanceTypeBorderColor(name) != DefaultBorderColor <==> name.Some? && name.value in ContentTypes
  {
  }
}
