/** The per-type icon and colour tables shared by the chat's source chips and the sidebar,
    with the fallback used for a content type the tables do not name. */
module ContentTypes {

  datatype Icon = FileText | Globe | Mic

  /** The five content types the tables name, in declaration order (the order in which
      `Object.entries(typeIcons)` visits them). */
  const KnownTypes: seq<string> := ["document", "web", "audio", "text", "image"]

  const TypeIcons: map<string, Icon> :=
    map["document" := FileText, "web" := Globe, "audio" := Mic, "text" := FileText, "image" := FileText]

  const TypeColors: map<string, string> :=
    map["document" := "text-blue-400", "web" := "text-green-400", "audio" := "text-purple-400",
        "text" := "text-yellow-400", "image" := "text-pink-400"]

  const FallbackColor: string := "text-midnight-300"

  /** `typeIcons[t] || FileText`. */
  function IconFor(t: string): (icon: Icon)
    ensures t in KnownTypes ==> icon == TypeIcons[t]
    ensures t !in KnownTypes ==> icon == FileText
  {
    if t in TypeIcons then TypeIcons[t] else FileText
  }

  /** `typeColors[t] || 'text-midnight-300'`. */
  function ColorFor(t: string): (color: string)
    ensures t in KnownTypes ==> color == TypeColors[t]
    ensures t !in KnownTypes ==> color == FallbackColor
  {
    if t in TypeColors then TypeColors[t] else FallbackColor
  }

  /** Only audio gets the microphone and only web the globe; every other type, named or not,
      is drawn with the document icon, and only named types get a table colour. */
  lemma IconAndColorFallback(t: string)
    ensures IconFor(t) == Mic <==> t == "audio"
    ensures IconFor(t) == Globe <==> t == "web"
    ensures ColorFor(t) != FallbackColor <==> t in KnownTypes
  {
  }
}
