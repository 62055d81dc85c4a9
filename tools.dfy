/** The MCP tool definitions: a tool property and the dictionary it is
    registered as. */
module Tools {
  import opened Wrappers
  import opened PyJson

  /** A property of an MCP tool: its name, its data type and a description
      shown to the assistant that calls the tool. */
  datatype ToolProperty = ToolProperty(propertyName: string, propertyType: string, description: string)

  const NameKey := "propertyName"
  const TypeKey := "propertyType"
  const DescriptionKey := "description"

  /** `to_dict`: a dict with the three keys, in this order. */
  function ToDict(t: ToolProperty): (d: Json)
    ensures d.JObject? && |d.members| == 3
    ensures Member(d.members, NameKey) == Some(JStr(t.propertyName))
    ensures Member(d.members, TypeKey) == Some(JStr(t.propertyType))
    ensures Member(d.members, DescriptionKey) == Some(JStr(t.description))
  {
    var d := JObject([(NameKey, JStr(t.propertyName)), (TypeKey, JStr(t.propertyType)), (DescriptionKey, JStr(t.description))]);
    var ms := d.members;
    assert ms[..2] == [(NameKey, JStr(t.propertyName)), (TypeKey, JStr(t.propertyType))];
    assert ms[..2][..1] == [(NameKey, JStr(t.propertyName))];
    assert Member(ms[..2][..1], NameKey) == Some(JStr(t.propertyName));
    assert Member(ms[..2], NameKey) == Some(JStr(t.propertyName));
    d
  }

  /** Reading a property back from a dict: each of the three keys must hold a string. */
  function FromDict(d: Json): Option<ToolProperty> {
    if !d.JObject? then None
    else
      match (Member(d.members, NameKey), Member(d.members, TypeKey), Member(d.members, DescriptionKey))
      case (Some(JStr(n)), Some(JStr(ty)), Some(JStr(desc))) => Some(ToolProperty(n, ty, desc))
      case _ => None
  }

  /** The dictionary loses nothing: reading it back gives the property. */
  lemma ToDictRoundTrip(t: ToolProperty)
    ensures FromDict(ToDict(t)) == Some(t)
  {
  }

  /** Any dict a property is read from holds the same three entries as the
      dictionary that property is written as. */
  lemma FromDictAgrees(d: Json, t: ToolProperty)
    requires FromDict(d) == Some(t)
    ensures d.JObject?
    ensures forall key | key in {NameKey, TypeKey, DescriptionKey} :: Member(d.members, key) == Member(ToDict(t).members, key)
  {
  }

  const TextToSqlQueryDescription :=
    "The natural language query to convert to SQL and execute against the medical data. For example: 'Show me all records for MEDCode 1302' or 'Find measurements containing sodium'"

  /** The properties of the `text_to_sql` tool: one string named `query`. */
  const TextToSqlProperties: seq<ToolProperty> := [ToolProperty("query", "string", TextToSqlQueryDescription)]

  /** The list registered with the tool, before it is serialised. */
  function PropertyDicts(props: seq<ToolProperty>): (ds: seq<Json>)
    ensures |ds| == |props|
    ensures forall i :: 0 <= i < |props| ==> FromDict(ds[i]) == Some(props[i])
  {
    seq(|props|, i requires 0 <= i < |props| => ToDict(props[i]))
  }

  /** The `text_to_sql` tool registers exactly one string property, `query`,
      the argument the tool reads its question from. */
  lemma TextToSqlToolDeclaresQuery()
    ensures |PropertyDicts(TextToSqlProperties)| == 1
    ensures Member(PropertyDicts(TextToSqlProperties)[0].members, NameKey) == Some(JStr("query"))
    ensures Member(PropertyDicts(TextToSqlProperties)[0].members, TypeKey) == Some(JStr("string"))
  {
  }
}
