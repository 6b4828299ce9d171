/** The presentation rules of `web/static/cards.js` (with the tables of
    `web/static/cards-config.js`): which card a tool response gets, the tool icon, the
    status class of an invoice or incident, the list headers and the subscriber fields
    shown. Building the DOM nodes is not modelled. */
module Cards {

  import opened Wrappers
  import opened Text
  import opened Seqs
  import opened Protocol
  import opened Weather

  /** `data.key` on a decoded JSON value other than `null`: the own property of an
      object, `undefined` (`None`) otherwise. */
  function Get(data: Json, key: string): (r: Option<Json>)
    ensures r.Some? <==> data.JObj? && key in data.fields
  {
    if data.JObj? && key in data.fields then Some(data.fields[key]) else None
  }

  /** JavaScript truthiness of a property read (`undefined` is falsy). */
  predicate Truthy(v: Option<Json>) {
    match v
    case None => false
    case Some(JNull) => false
    case Some(JBool(b)) => b
    case Some(JNum(n)) => n != 0
    case Some(JStr(s)) => s != ""
    case Some(JArr(_)) => true
    case Some(JObj(_)) => true
  }

  /** The card `renderResponseData` builds. */
  datatype Card =
    | SubscriberCard
    | FacturasCard(facturas: seq<Json>)
    | IncidenciasCard(incidencias: seq<Json>)
    | WeatherCard(weather: WeatherData)
    | GenericCard

  predicate IsSubscriber(data: Json) {
    Truthy(Get(data, "nombre")) || Truthy(Get(data, "dni")) || Truthy(Get(data, "direccion"))
  }

  predicate HasArray(data: Json, key: string) {
    Get(data, key).Some? && Get(data, key).value.JArr?
  }

  /** `renderResponseData(data)`: the first special case that applies, in a fixed order;
      `None` when reading a property of `null` throws. */
  function CardFor(data: Json): (r: Option<Card>)
    ensures r.None? <==> data.JNull?
    ensures r == Some(SubscriberCard) <==> !data.JNull? && IsSubscriber(data)
    ensures r.Some? && r.value.FacturasCard? <==> !data.JNull? && !IsSubscriber(data) && HasArray(data, "facturas")
    ensures r.Some? && r.value.FacturasCard? ==> Get(data, "facturas") == Some(JArr(r.value.facturas))
    ensures r.Some? && r.value.IncidenciasCard? <==>
              !data.JNull? && !IsSubscriber(data) && !HasArray(data, "facturas") && HasArray(data, "incidencias")
    ensures r.Some? && r.value.IncidenciasCard? ==> Get(data, "incidencias") == Some(JArr(r.value.incidencias))
    ensures r.Some? && r.value.WeatherCard? <==>
              !data.JNull? && !IsSubscriber(data) && !HasArray(data, "facturas") && !HasArray(data, "incidencias")
              && Get(data, "clima").Some?
    ensures r.Some? && r.value.WeatherCard? ==> r.value.weather == ParseWeatherString(Get(data, "clima").value)
  {
    if data.JNull? then None
    else if IsSubscriber(data) then Some(SubscriberCard)
    else if Truthy(Get(data, "facturas")) && HasArray(data, "facturas") then Some(FacturasCard(Get(data, "facturas").value.items))
    else if Truthy(Get(data, "incidencias")) && HasArray(data, "incidencias") then Some(IncidenciasCard(Get(data, "incidencias").value.items))
    else if Get(data, "clima").Some? then Some(WeatherCard(ParseWeatherString(Get(data, "clima").value)))
    else Some(GenericCard)
  }

  /** Anything that is not an object (a string, a number, a list) gets the generic card. */
  lemma NonObjectIsGeneric(data: Json)
    requires !data.JNull? && !data.JObj?
    ensures CardFor(data) == Some(GenericCard)
  {
  }

  /** `TOOL_ICONS`. */
  const ToolIcons: map<string, string> := map[
    "buscar_abonado" := "\U{1F464}",
    "obtener_facturas" := "\U{1F4C4}",
    "consultar_clima" := "\U{1F324}\U{FE0F}",
    "crear_incidencia" := "\U{1F6A8}",
    "buscar_incidencia" := "\U{1F50D}",
    "default" := "\U{1F527}"
  ]

  /** `TOOL_ICONS[tool] || TOOL_ICONS.default`. */
  function ToolIcon(tool: string): (r: string)
    ensures tool in ToolIcons ==> r == ToolIcons[tool]
    ensures tool !in ToolIcons ==> r == ToolIcons["default"]
    ensures r != "" && r in ToolIcons.Values
  {
    if tool in ToolIcons && ToolIcons[tool] != "" then ToolIcons[tool] else ToolIcons["default"]
  }

  const StatusPrefix := "estado-"
  const UnknownStatus := "estado-desconocido"

  /** `estado-${item.estado?.toLowerCase() || 'desconocido'}` for one invoice or incident;
      `None` when it throws (`item` is `null`, or `estado` is neither missing, `null` nor a string). */
  function StatusClass(item: Json): (r: Option<string>)
    ensures item.JNull? ==> r.None?
    ensures !item.JNull? && Get(item, "estado") in {None, Some(JNull), Some(JStr(""))} ==> r == Some(UnknownStatus)
    ensures !item.JNull? && Get(item, "estado").Some? && Get(item, "estado").value.JStr? && Get(item, "estado").value.s != "" ==>
              r == Some(StatusPrefix + Lower(Get(item, "estado").value.s))
    ensures (!item.JNull? && Get(item, "estado").Some? && !Get(item, "estado").value.JNull? &&
             !Get(item, "estado").value.JStr?) ==> r.None?
    ensures r.Some? ==> |r.value| > |StatusPrefix| && r.value[..|StatusPrefix|] == StatusPrefix
    ensures r.Some? ==> forall k :: |StatusPrefix| <= k < |r.value| ==> !IsUpper(r.value[k])
  {
    if item.JNull? then None
    else match Get(item, "estado")
      case None => Some(UnknownStatus)
      case Some(JNull) => Some(UnknownStatus)
      case Some(JStr(e)) =>
        var low := Lower(e);
        if low == "" then Some(UnknownStatus) else Some(StatusPrefix + low)
      case Some(_) => None
  }

  /** Two states that differ only in letter case get the same class. */
  lemma StatusClassIgnoresCase(a: Json, b: Json)
    requires a.JObj? && b.JObj? && "estado" in a.fields && "estado" in b.fields
    requires a.fields["estado"].JStr? && b.fields["estado"].JStr?
    requires Lower(a.fields["estado"].s) == Lower(b.fields["estado"].s)
    ensures StatusClass(a) == StatusClass(b)
  {
  }

  const FacturasTitle := "\U{1F4C4} Facturas ("
  const IncidenciasTitle := "\U{1F6A8} Incidencias ("

  /** A list header `<title>${list.length})`: the number shown reads back as the list's length. */
  function CountHeader(title: string, items: seq<Json>): (r: string)
    ensures |r| > |title| + 1 && r[..|title|] == title && r[|r| - 1] == ')'
    ensures AllDigits(r[|title| .. |r| - 1]) && ParseDigits(r[|title| .. |r| - 1]) == |items|
  {
    var count := ShowNat(|items|);
    ParseShowRoundTrip(|items|);
    var r := title + count + ")";
    assert r[|title| .. |r| - 1] == count;
    r
  }

  /** The keys of `FIELD_CONFIGS.subscriber`, in configured order. */
  const SubscriberKeys: seq<string> := ["dni", "direccion", "correo", "telefono", "poliza"]

  /** The place of a key in `FIELD_CONFIGS.subscriber`, or the number of keys for any other. */
  function Position(key: string): (r: nat)
    ensures r <= |SubscriberKeys|
    ensures r < |SubscriberKeys| ==> SubscriberKeys[r] == key
  {
    match FirstWhere(SubscriberKeys, (x: string) => x == key)
    case Some(i) => i
    case None => |SubscriberKeys|
  }

  /** The configured keys are distinct, so each sits at its own place. */
  lemma PositionOfKey(i: nat)
    requires i < |SubscriberKeys|
    ensures Position(SubscriberKeys[i]) == i
  {
    var key := SubscriberKeys[i];
    assert forall j :: 0 <= j < |SubscriberKeys| && j != i ==> SubscriberKeys[j] != key;
  }

  function Shown(data: Json): string -> bool {
    (key: string) => Truthy(Get(data, key))
  }

  /** The fields of a subscriber card, in configured order, each shown only when truthy. */
  function SubscriberFields(data: Json): (r: seq<string>)
    ensures forall k :: k in r <==> k in SubscriberKeys && Truthy(Get(data, k))
    ensures |r| <= |SubscriberKeys|
    ensures forall a, b :: 0 <= a < b < |r| ==> Position(r[a]) < Position(r[b])
  {
    FilterMembership(SubscriberKeys, Shown(data));
    var rank := (key: string) => Position(key) as int;
    forall i, j | 0 <= i < j < |SubscriberKeys| ensures rank(SubscriberKeys[i]) < rank(SubscriberKeys[j]) {
      PositionOfKey(i);
      PositionOfKey(j);
    }
    FilterKeepsOrder(SubscriberKeys, Shown(data), rank);
    Filter(SubscriberKeys, Shown(data))
  }

  /** A subscriber with every configured field filled sees all of them, in configured order. */
  lemma AllSubscriberFieldsShown(data: Json)
    requires forall k :: k in SubscriberKeys ==> Truthy(Get(data, k))
    ensures SubscriberFields(data) == SubscriberKeys
  {
    FilterAll(SubscriberKeys, Shown(data));
  }

  /** The subscriber's name heads the card only when it is truthy. */
  function SubscriberName(data: Json): (r: Option<Json>)
    ensures r.Some? <==> Truthy(Get(data, "nombre"))
    ensures r.Some? ==> Get(data, "nombre") == Some(r.value)
  {
    if Truthy(Get(data, "nombre")) then Get(data, "nombre") else None
  }

  /** `createResponseCard(formatToolResponse(result))` for one entry of a `tool_calls`
      reply: the tool's icon and the card of its response. An error entry has no
      `response`, and reading a property of `undefined` throws (`None`). */
  function ResultCard(result: ToolResult): (r: Option<(string, Card)>)
    ensures r.Some? <==> result.Succeeded? && !result.response.JNull?
    ensures r.Some? ==> r.value.0 == ToolIcon(result.tool) && Some(r.value.1) == CardFor(result.response)
  {
    if result.Succeeded? && !result.response.JNull? then Some((ToolIcon(result.tool), CardFor(result.response).value))
    else None
  }
}
