/** Bucket paths of the document store (`clients/doc/doc.go`): printing keys, parsing them back. */
module Paths {
  import opened Clients
  import opened Wrappers

  const APPS := "settings/apps/"
  const PROCESSES := "settings/processes/"
  const STATES := "state/"
  const JSON := ".json"

  predicate SlashFree(s: string) {
    forall i :: 0 <= i < |s| ==> s[i] != '/'
  }

  /** The identifiers the layout can carry. */
  predicate Printable(k: ProcessKey) {
    SlashFree(k.app) && SlashFree(k.userId) && SlashFree(k.processId)
  }

  function Print(prefix: string, k: ProcessKey): string {
    prefix + (k.app + "/" + (k.userId + "/" + (k.processId + JSON)))
  }

  function PrintApp(name: string): string {
    APPS + (name + JSON)
  }

  predicate HasSuffix(s: string, suffix: string) {
    |suffix| <= |s| && s[|s| - |suffix|..] == suffix
  }

  function TrimSuffix(s: string, suffix: string): string {
    if HasSuffix(s, suffix) then s[..|s| - |suffix|] else s
  }

  function SlashAt(s: string): (i: nat)
    ensures i <= |s| && SlashFree(s[..i]) && (i < |s| ==> s[i] == '/')
  {
    if s == [] || s[0] == '/' then 0 else 1 + SlashAt(s[1..])
  }

  /** Splits at the first slash. */
  function Cut(s: string): (r: Option<(string, string)>)
    ensures r.Some? ==> SlashFree(r.value.0) && s == r.value.0 + "/" + r.value.1
    ensures r.None? ==> SlashFree(s)
  {
    var i := SlashAt(s);
    if i < |s| then
      assert s == s[..i] + "/" + s[i + 1..];
      Some((s[..i], s[i + 1..]))
    else
      assert s[..i] == s;
      None
  }

  /** The key a path under `prefix` was printed from, if any. */
  function Parse(prefix: string, path: string): Option<ProcessKey> {
    if !(prefix <= path) then None
    else
      var c := Cut(path[|prefix|..]);
      if c.None? then None
      else
        var d := Cut(c.value.1);
        if d.None? || !SlashFree(d.value.1) || !HasSuffix(d.value.1, JSON) then None
        else Some(ProcessKey(c.value.0, d.value.0, TrimSuffix(d.value.1, JSON)))
  }

  function ParseApp(path: string): Option<string> {
    if APPS <= path && HasSuffix(path[|APPS|..], JSON) then Some(TrimSuffix(path[|APPS|..], JSON)) else None
  }

  // ----- printing and parsing are inverse

  lemma {:induction false} SlashIsWhere(a: string, r: string)
    requires SlashFree(a)
    ensures SlashAt(a + "/" + r) == |a|
  {
    if a == [] {
      assert (a + "/" + r)[0] == '/';
    } else {
      SlashIsWhere(a[1..], r);
      assert (a + "/" + r)[1..] == a[1..] + "/" + r;
    }
  }

  lemma CutJoined(a: string, r: string)
    requires SlashFree(a)
    ensures Cut(a + ("/" + r)) == Some((a, r))
  {
    SlashIsWhere(a, r);
    assert a + ("/" + r) == a + "/" + r;
    assert (a + "/" + r)[..|a|] == a;
    assert (a + "/" + r)[|a| + 1..] == r;
  }

  lemma Suffixed(s: string, suffix: string)
    ensures HasSuffix(s + suffix, suffix) && TrimSuffix(s + suffix, suffix) == s
  {
    assert (s + suffix)[|s|..] == suffix;
    assert (s + suffix)[..|s|] == s;
  }

  lemma Trimmed(s: string, suffix: string)
    requires HasSuffix(s, suffix)
    ensures TrimSuffix(s, suffix) + suffix == s
  {}

  lemma ParsePrinted(prefix: string, k: ProcessKey)
    requires Printable(k)
    ensures Parse(prefix, Print(prefix, k)) == Some(k)
  {
    var last := k.processId + JSON;
    var rest := k.userId + ("/" + last);
    assert Print(prefix, k)[|prefix|..] == k.app + ("/" + rest);
    CutJoined(k.app, rest);
    CutJoined(k.userId, last);
    LastPart(k.processId);
  }

  lemma LastPart(id: string)
    requires SlashFree(id)
    ensures SlashFree(id + JSON) && HasSuffix(id + JSON, JSON) && TrimSuffix(id + JSON, JSON) == id
  {
    Suffixed(id, JSON);
  }

  lemma PrintParsed(prefix: string, path: string)
    requires Parse(prefix, path).Some?
    ensures Printable(Parse(prefix, path).value) && Print(prefix, Parse(prefix, path).value) == path
  {
    var k := Parse(prefix, path).value;
    var c := Cut(path[|prefix|..]).value;
    var d := Cut(c.1).value;
    Trimmed(d.1, JSON);
    assert d.1 == k.processId + JSON;
    assert forall i :: 0 <= i < |k.processId| ==> k.processId[i] == d.1[i];
    assert path == prefix + path[|prefix|..];
    assert path[|prefix|..] == k.app + "/" + c.1;
    assert c.1 == k.userId + "/" + (k.processId + JSON);
    assert path == Print(prefix, k);
  }

  /** Printed keys are injective within each layout and never collide across the three. */
  lemma PrintedKeysDistinct(k: ProcessKey, l: ProcessKey, name: string, name': string)
    requires Printable(k) && Printable(l)
    ensures Print(PROCESSES, k) == Print(PROCESSES, l) ==> k == l
    ensures Print(STATES, k) == Print(STATES, l) ==> k == l
    ensures PrintApp(name) == PrintApp(name') ==> name == name'
    ensures Print(PROCESSES, k) != Print(STATES, l) && Print(PROCESSES, k) != PrintApp(name) && Print(STATES, k) != PrintApp(name)
  {
    ParsePrinted(PROCESSES, k);
    ParsePrinted(PROCESSES, l);
    ParsePrinted(STATES, k);
    ParsePrinted(STATES, l);
    AppParsePrinted(name);
    AppParsePrinted(name');
    Layouts(Print(PROCESSES, k));
    Layouts(Print(STATES, k));
  }

  lemma AppParsePrinted(name: string)
    ensures APPS <= PrintApp(name) && ParseApp(PrintApp(name)) == Some(name)
  {
    assert PrintApp(name)[|APPS|..] == name + JSON;
    Suffixed(name, JSON);
  }

  lemma AppPrintParsed(path: string)
    requires ParseApp(path).Some?
    ensures PrintApp(ParseApp(path).value) == path
  {
    Trimmed(path[|APPS|..], JSON);
    assert path == APPS + path[|APPS|..];
  }

  /** A path belongs to at most one layout. */
  lemma Layouts(path: string)
    ensures PROCESSES <= path ==> !(STATES <= path) && !(APPS <= path)
    ensures STATES <= path ==> !(APPS <= path)
  {
    assert PROCESSES <= path ==> path[1] == 'e' && path[9] == 'p';
    assert STATES <= path ==> path[1] == 't';
    assert APPS <= path ==> path[1] == 'e' && path[9] == 'a';
  }

  /** What the paths look like. */
  lemma PathsLookLike(name: string, k: ProcessKey)
    ensures PrintApp(name) == "settings/apps/" + name + ".json"
    ensures Print(PROCESSES, k) == "settings/processes/" + k.app + "/" + k.userId + "/" + k.processId + ".json"
    ensures Print(STATES, k) == "state/" + k.app + "/" + k.userId + "/" + k.processId + ".json"
  {
    var tail := k.app + ("/" + (k.userId + ("/" + (k.processId + ".json"))));
    assert tail == k.app + "/" + k.userId + "/" + k.processId + ".json";
  }
}
