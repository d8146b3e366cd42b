/** Text helpers shared by the modules; text is one byte per character. */
module Text {
  import opened Wrappers

  function Join(parts: seq<string>, sep: string): string
  {
    if parts == [] then ""
    else if |parts| == 1 then parts[0]
    else Join(parts[..|parts| - 1], sep) + sep + parts[|parts| - 1]
  }

  method JoinAll(parts: seq<string>, sep: string) returns (r: string)
    ensures r == Join(parts, sep)
  {
    r := "";
    for i := 0 to |parts|
      invariant r == Join(parts[..i], sep)
    {
      assert parts[..i + 1][..i] == parts[..i];
      if i > 0 { r := r + sep + parts[i]; } else { r := parts[i]; }
    }
    assert parts[..|parts|] == parts;
  }

  /** A number in decimal digits. */
  function Dec(n: nat): string
  {
    if n < 10 then [(n + 48) as char] else Dec(n / 10) + [(n % 10 + 48) as char]
  }

  function FindNewline(s: string): (r: Option<nat>)
    ensures r.Some? ==> r.value < |s| && s[r.value] == '\n'
  {
    if s == "" then None
    else if s[0] == '\n' then Some(0)
    else
      var r := FindNewline(s[1..]);
      if r.Some? then Some(r.value + 1) else None
  }

  function DropCarriageReturn(s: string): string
  {
    if s != "" && s[|s| - 1] == '\r' then s[..|s| - 1] else s
  }

  /** `str::lines`. */
  function TextLines(s: string): seq<string>
    decreases |s|
  {
    var i := FindNewline(s);
    if i.Some? then [DropCarriageReturn(s[..i.value])] + TextLines(s[i.value + 1..])
    else if s == "" then [] else [s]
  }
}
