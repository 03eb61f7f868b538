/** JSON values, as the settings.json files hold them. */
module Json {
  import opened Wrappers

  datatype Json =
    | JNull
    | JBool(b: bool)
    | JNum(n: real)
    | JStr(s: string)
    | JArray(items: seq<Json>)
    | JObject(fields: map<string, Json>)

  /** A settings.json before a script rewrites it. */
  datatype SettingsFile =
    | Missing              // no file at the path
    | Unreadable           // the file exists but json.load raises
    | Parsed(value: Json)

  /** The top-level dictionary a script starts from: the parsed object, or its own defaults. */
  function StartingSettings(file: SettingsFile, defaults: map<string, Json>): (r: Option<map<string, Json>>)
    ensures r.None? <==> file.Unreadable? || (file.Parsed? && !file.value.JObject?)
    ensures file.Missing? ==> r == Some(defaults)
    ensures file.Parsed? && file.value.JObject? ==> r == Some(file.value.fields)
  {
    match file
    case Missing => Some(defaults)
    case Unreadable => None
    case Parsed(v) => if v.JObject? then Some(v.fields) else None
  }
}
