/** `Metadata.onOff`: the command-line switch parser shared by the three framework files. */
module Switches {
  import opened Wrappers

  const OnSpellings: set<string> := {"on", "True", "true"}
  const OffSpellings: set<string> := {"off", "False", "false"}

  /** `True` for an "on" spelling, `False` for an "off" spelling, `None` for anything else. */
  function OnOff(arg: string): (r: Option<bool>)
    ensures r == Some(true) <==> arg in OnSpellings
    ensures r == Some(false) <==> arg in OffSpellings
    ensures r.None? <==> arg !in OnSpellings + OffSpellings
  {
    if arg == "on" || arg == "True" || arg == "true" then Some(true)
    else if arg == "off" || arg == "False" || arg == "false" then Some(false)
    else None
  }

  /** Python's `str` of a boolean. */
  function BoolText(b: bool): string
  {
    if b then "True" else "False"
  }

  /** Parsing the printed form of a boolean gives the boolean back. */
  lemma OnOffReadsPrintedBool(b: bool)
    ensures OnOff(BoolText(b)) == Some(b)
  {
  }
}
