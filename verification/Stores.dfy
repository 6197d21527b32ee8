/** The two client stores: JSON documents in a bucket (`clients/doc/doc.go`) and three maps in memory
    (`clients/mem/mem.go`). Both are proved against the same `Contents`; for the bucket, `Abs` reads
    the contents off the paths.

    A bucket is a map from paths to bodies that lists the paths under a prefix in any order. Whether
    a bucket call goes through is an input, and one that does not changes nothing. The JSON codec of
    a state is a parameter that decodes what it encodes.
 */
module Stores {
  import opened Clients
  import opened Paths
  import opened Wrappers

  datatype Codec = Codec(enc: string -> string, dec: string -> Option<string>)

  ghost predicate Faithful(c: Codec) {
    forall s: string :: c.dec(c.enc(s)) == Some(s)
  }

  type Bucket = map<string, string>

  // ----- the contents of a bucket

  ghost function Keys(b: Bucket, prefix: string): set<ProcessKey> {
    set path | path in b && Parse(prefix, path).Some? :: Parse(prefix, path).value
  }

  ghost function AppNames(b: Bucket): set<string> {
    set path | path in b && ParseApp(path).Some? :: ParseApp(path).value
  }

  lemma KeysExact(b: Bucket, prefix: string, k: ProcessKey)
    ensures k in Keys(b, prefix) <==> Printable(k) && Print(prefix, k) in b
  {
    if Printable(k) && Print(prefix, k) in b {
      ParsePrinted(prefix, k);
    }
    if k in Keys(b, prefix) {
      var path :| path in b && Parse(prefix, path) == Some(k);
      PrintParsed(prefix, path);
    }
  }

  lemma NamesExact(b: Bucket, name: string)
    ensures name in AppNames(b) <==> PrintApp(name) in b
  {
    AppParsePrinted(name);
    if name in AppNames(b) {
      var path :| path in b && ParseApp(path) == Some(name);
      AppPrintParsed(path);
    }
  }

  ghost function BodyAt(b: Bucket, path: string): string {
    if path in b then b[path] else ""
  }

  ghost function ProcessesIn(b: Bucket): map<ProcessKey, string> {
    map k | k in Keys(b, PROCESSES) :: BodyAt(b, Print(PROCESSES, k))
  }

  ghost function AppsIn(b: Bucket): map<string, string> {
    map n | n in AppNames(b) :: BodyAt(b, PrintApp(n))
  }

  ghost function StateAt(b: Bucket, codec: Codec, k: ProcessKey): Option<string> {
    codec.dec(BodyAt(b, Print(STATES, k)))
  }

  ghost function StatesIn(b: Bucket, codec: Codec): map<ProcessKey, string> {
    map k | k in Keys(b, STATES) && StateAt(b, codec, k).Some? :: StateAt(b, codec, k).value
  }

  ghost function Abs(b: Bucket, codec: Codec): Contents {
    Contents(ProcessesIn(b), AppsIn(b), StatesIn(b, codec))
  }

  /** The bucket after a body was put at a path, or the path deleted. */
  function Written(b: Bucket, path: string, body: Option<string>): Bucket {
    if body.Some? then b[path := body.value] else b - {path}
  }

  /** What a write under one key's path does to the keys of its own layout... */
  lemma OwnLayout(b: Bucket, prefix: string, key: ProcessKey, body: Option<string>, k: ProcessKey)
    requires Printable(key)
    ensures var b' := Written(b, Print(prefix, key), body);
            && (k in Keys(b', prefix) <==> if k == key then body.Some? else k in Keys(b, prefix))
            && (k != key && k in Keys(b, prefix) ==> BodyAt(b', Print(prefix, k)) == BodyAt(b, Print(prefix, k)))
  {
    KeysExact(b, prefix, k);
    KeysExact(Written(b, Print(prefix, key), body), prefix, k);
    ParsePrinted(prefix, key);
    if Printable(k) {
      ParsePrinted(prefix, k);
    }
  }

  /** ... and to those of the other: nothing. */
  lemma OtherLayout(b: Bucket, prefix: string, path: string, body: Option<string>, k: ProcessKey)
    requires Printable(k) ==> Print(prefix, k) != path
    ensures var b' := Written(b, path, body);
            && (k in Keys(b', prefix) <==> k in Keys(b, prefix))
            && (k in Keys(b, prefix) ==> BodyAt(b', Print(prefix, k)) == BodyAt(b, Print(prefix, k)))
  {
    KeysExact(b, prefix, k);
    KeysExact(Written(b, path, body), prefix, k);
  }

  lemma ProcessesUntouched(b: Bucket, path: string, body: Option<string>)
    requires forall k | Printable(k) :: Print(PROCESSES, k) != path
    ensures ProcessesIn(Written(b, path, body)) == ProcessesIn(b)
  {
    forall k ensures k in Keys(Written(b, path, body), PROCESSES) <==> k in Keys(b, PROCESSES)
             ensures k in Keys(b, PROCESSES) ==>
                       BodyAt(Written(b, path, body), Print(PROCESSES, k)) == BodyAt(b, Print(PROCESSES, k))
    {
      OtherLayout(b, PROCESSES, path, body, k);
    }
  }

  lemma StatesUntouched(b: Bucket, codec: Codec, path: string, body: Option<string>)
    requires forall k | Printable(k) :: Print(STATES, k) != path
    ensures StatesIn(Written(b, path, body), codec) == StatesIn(b, codec)
  {
    forall k ensures k in Keys(Written(b, path, body), STATES) <==> k in Keys(b, STATES)
             ensures k in Keys(b, STATES) ==> StateAt(Written(b, path, body), codec, k) == StateAt(b, codec, k)
    {
      OtherLayout(b, STATES, path, body, k);
    }
  }

  lemma OwnProcess(b: Bucket, key: ProcessKey, body: Option<string>, k: ProcessKey)
    requires Printable(key)
    ensures var m, m' := ProcessesIn(b), ProcessesIn(Written(b, Print(PROCESSES, key), body));
            && (k in m' <==> if k == key then body.Some? else k in m)
            && (k in m' ==> m'[k] == if k == key then body.value else m[k])
  {
    OwnLayout(b, PROCESSES, key, body, k);
  }

  lemma OwnState(b: Bucket, codec: Codec, key: ProcessKey, state: Option<string>, k: ProcessKey)
    requires Printable(key) && Faithful(codec)
    ensures var m, m' := StatesIn(b, codec), StatesIn(Written(b, Print(STATES, key), Encoded(codec, state)), codec);
            && (k in m' <==> if k == key then state.Some? else k in m)
            && (k in m' ==> m'[k] == if k == key then state.value else m[k])
  {
    OwnLayout(b, STATES, key, Encoded(codec, state), k);
  }

  /** A map that differs from another in one key only. */
  lemma DiffersAt(m: map<ProcessKey, string>, m': map<ProcessKey, string>, key: ProcessKey, v: Option<string>)
    requires forall k :: k in m' <==> if k == key then v.Some? else k in m
    requires forall k :: k in m' ==> m'[k] == if k == key then v.value else m[k]
    ensures m' == if v.Some? then m[key := v.value] else m - {key}
  {
    if v.Some? {
      assert m' == m[key := v.value];
    } else {
      assert m' == m - {key};
    }
  }

  lemma ProcessWritten(b: Bucket, key: ProcessKey, body: Option<string>)
    requires Printable(key)
    ensures ProcessesIn(Written(b, Print(PROCESSES, key), body)) ==
            if body.Some? then ProcessesIn(b)[key := body.value] else ProcessesIn(b) - {key}
  {
    var m, m' := ProcessesIn(b), ProcessesIn(Written(b, Print(PROCESSES, key), body));
    forall k ensures k in m' <==> if k == key then body.Some? else k in m
             ensures k in m' ==> m'[k] == if k == key then body.value else m[k]
    {
      OwnProcess(b, key, body, k);
    }
    DiffersAt(m, m', key, body);
  }

  lemma StateWritten(b: Bucket, codec: Codec, key: ProcessKey, state: Option<string>)
    requires Printable(key) && Faithful(codec)
    ensures StatesIn(Written(b, Print(STATES, key), Encoded(codec, state)), codec) ==
            if state.Some? then StatesIn(b, codec)[key := state.value] else StatesIn(b, codec) - {key}
  {
    var m, m' := StatesIn(b, codec), StatesIn(Written(b, Print(STATES, key), Encoded(codec, state)), codec);
    forall k ensures k in m' <==> if k == key then state.Some? else k in m
             ensures k in m' ==> m'[k] == if k == key then state.value else m[k]
    {
      OwnState(b, codec, key, state, k);
    }
    DiffersAt(m, m', key, state);
  }

  function Encoded(codec: Codec, state: Option<string>): Option<string> {
    if state.Some? then Some(codec.enc(state.value)) else None
  }

  /** Every write to the bucket is the same write to its contents. */
  lemma WritesCommute(b: Bucket, codec: Codec, key: ProcessKey, body: Option<string>, state: Option<string>)
    requires Printable(key) && Faithful(codec)
    ensures var c := Abs(b, codec);
            && Abs(Written(b, Print(PROCESSES, key), body), codec) ==
                 c.(processes := if body.Some? then c.processes[key := body.value] else c.processes - {key})
            && Abs(Written(b, Print(STATES, key), Encoded(codec, state)), codec) ==
                 c.(states := if state.Some? then c.states[key := state.value] else c.states - {key})
  {
    forall k | Printable(k)
      ensures Print(PROCESSES, k) != Print(STATES, key) && Print(STATES, k) != Print(PROCESSES, key)
    {
      PrintedKeysDistinct(k, key, "", "");
      PrintedKeysDistinct(key, k, "", "");
    }
    ProcessWritten(b, key, body);
    StatesUntouched(b, codec, Print(PROCESSES, key), body);
    AppsUntouched(b, Print(PROCESSES, key), body);
    StateWritten(b, codec, key, state);
    ProcessesUntouched(b, Print(STATES, key), Encoded(codec, state));
    AppsUntouched(b, Print(STATES, key), Encoded(codec, state));
  }

  lemma AppsUntouched(b: Bucket, path: string, body: Option<string>)
    requires PROCESSES <= path || STATES <= path
    ensures AppsIn(Written(b, path, body)) == AppsIn(b)
  {
    var b' := Written(b, path, body);
    Layouts(path);
    forall n ensures n in AppNames(b') <==> n in AppNames(b)
             ensures BodyAt(b, PrintApp(n)) == BodyAt(b', PrintApp(n))
    {
      NamesExact(b, n);
      NamesExact(b', n);
      AppParsePrinted(n);
    }
  }

  lemma OwnApp(b: Bucket, name: string, doc: string, n: string)
    ensures var m, m' := AppsIn(b), AppsIn(Written(b, PrintApp(name), Some(doc)));
            && (n in m' <==> n == name || n in m)
            && (n in m' ==> m'[n] == if n == name then doc else m[n])
  {
    NamesExact(b, n);
    NamesExact(Written(b, PrintApp(name), Some(doc)), n);
    AppParsePrinted(n);
    AppParsePrinted(name);
  }

  lemma AppsWritten(b: Bucket, name: string, doc: string)
    ensures AppsIn(Written(b, PrintApp(name), Some(doc))) == AppsIn(b)[name := doc]
  {
    var m, m' := AppsIn(b), AppsIn(Written(b, PrintApp(name), Some(doc)));
    forall n ensures n in m' <==> n == name || n in m
             ensures n in m' ==> m'[n] == if n == name then doc else m[n]
    {
      OwnApp(b, name, doc, n);
    }
  }

  lemma AppWriteCommutes(b: Bucket, codec: Codec, name: string, doc: string)
    ensures Abs(b[PrintApp(name) := doc], codec) == Abs(b, codec).(apps := Abs(b, codec).apps[name := doc])
  {
    forall k | Printable(k) ensures Print(PROCESSES, k) != PrintApp(name) && Print(STATES, k) != PrintApp(name) {
      PrintedKeysDistinct(k, k, name, name);
    }
    ProcessesUntouched(b, PrintApp(name), Some(doc));
    StatesUntouched(b, codec, PrintApp(name), Some(doc));
    AppsWritten(b, name, doc);
  }

  // ----- listing

  function IdPath(app: string, userId: string, id: string): string {
    Print(PROCESSES, ProcessKey(app, userId, id))
  }

  function UserPrefix(app: string, userId: string): string {
    PROCESSES + app + "/" + userId + "/"
  }

  /** The listing's way of reading an ID off a path. */
  lemma IdRead(app: string, userId: string, path: string, id: string)
    requires UserPrefix(app, userId) <= path
    ensures var rest := path[|UserPrefix(app, userId)|..];
            (HasSuffix(rest, JSON) && SlashFree(TrimSuffix(rest, JSON)) && TrimSuffix(rest, JSON) == id)
            <==> (path == IdPath(app, userId, id) && SlashFree(id))
  {
    var p := UserPrefix(app, userId);
    var rest := path[|p|..];
    assert path == p + rest;
    assert IdPath(app, userId, id) == p + (id + JSON);
    if HasSuffix(rest, JSON) {
      Trimmed(rest, JSON);
    }
    if path == IdPath(app, userId, id) {
      assert (p + (id + JSON))[|p|..] == id + JSON;
      Suffixed(id, JSON);
    }
  }

  lemma SlashInSuffix(rest: string)
    requires HasSuffix(rest, JSON)
    ensures SlashFree(rest) <==> SlashFree(TrimSuffix(rest, JSON))
  {
    Trimmed(rest, JSON);
    var id := TrimSuffix(rest, JSON);
    assert forall i :: 0 <= i < |rest| ==> rest[i] == if i < |id| then id[i] else JSON[i - |id|];
  }

  /** The listing's way of reading a process off a state path of one application. */
  function RefOf(app: string, path: string): Option<ProcessKey>
    requires STATES + app + "/" <= path
  {
    var c := Cut(TrimSuffix(path[|STATES + app + "/"|..], JSON));
    if c.None? || !SlashFree(c.value.1) then None else Some(ProcessKey(app, c.value.0, c.value.1))
  }

  /** The paths whose bodies the listing reads. */
  predicate ReadFor(app: string, path: string, b: Bucket) {
    path in b && STATES + app + "/" <= path && RefOf(app, path).Some?
  }

  /** What the listing makes of a path. */
  function ReadAt(app: string, path: string, b: Bucket, codec: Codec): Option<ProcessRef> {
    if ReadFor(app, path, b) && codec.dec(b[path]).Some?
    then Some(ProcessRef(RefOf(app, path).value, codec.dec(b[path]).value)) else None
  }

  function Reads(paths: seq<string>, app: string, b: Bucket, codec: Codec): seq<ProcessRef> {
    if paths == [] then []
    else
      var ref := ReadAt(app, paths[|paths| - 1], b, codec);
      Reads(paths[..|paths| - 1], app, b, codec) + if ref.Some? then [ref.value] else []
  }

  /** A path that no write of this store made, and that the listing takes for a process: it lacks the
      suffix, which the listing strips but does not ask for. */
  predicate Stray(b: Bucket, codec: Codec, app: string, path: string) {
    ReadAt(app, path, b, codec).Some? && !HasSuffix(path, JSON)
  }

  ghost predicate NoStray(b: Bucket, codec: Codec, app: string) {
    forall path :: !Stray(b, codec, app, path)
  }

  /** `paths` lists the paths of a bucket under a prefix, each once, in some order. */
  ghost predicate IsListing(paths: seq<string>, b: Bucket, prefix: string) {
    && (forall i, j :: 0 <= i < j < |paths| ==> paths[i] != paths[j])
    && (forall path :: path in paths <==> path in b && prefix <= path)
  }

  lemma RestTidy(app: string, path: string)
    requires STATES + app + "/" <= path && HasSuffix(path, JSON)
    ensures HasSuffix(path[|STATES + app + "/"|..], JSON)
  {
    var p := STATES + app + "/";
    var n := |path| - |JSON|;
    assert path[n..] == JSON && SlashFree(JSON);
    assert path[|p| - 1] == '/';
    assert forall j :: n <= j < |path| ==> path[j] == path[n..][j - n];
    assert |p| <= n;
    assert path[|p|..][n - |p|..] == path[n..];
  }

  lemma RefPrinted(app: string, k: ProcessKey)
    requires k.app == app && Printable(k)
    ensures STATES + app + "/" <= Print(STATES, k) && RefOf(app, Print(STATES, k)) == Some(k)
  {
    var p := STATES + app + "/";
    var tail := k.userId + ("/" + k.processId);
    assert Print(STATES, k) == p + (tail + JSON);
    assert (p + (tail + JSON))[|p|..] == tail + JSON;
    Suffixed(tail, JSON);
    CutJoined(k.userId, k.processId);
  }

  lemma PrintedRef(app: string, path: string)
    requires STATES + app + "/" <= path && HasSuffix(path, JSON) && SlashFree(app) && RefOf(app, path).Some?
    ensures var k := RefOf(app, path).value;
            k.app == app && Printable(k) && path == Print(STATES, k)
  {
    var p := STATES + app + "/";
    var k := RefOf(app, path).value;
    RestTidy(app, path);
    Trimmed(path[|p|..], JSON);
    assert path == p + path[|p|..];
    assert path[|p|..] == k.userId + "/" + k.processId + JSON;
    assert path == Print(STATES, k);
  }

  /** A path of one application's states is read as the process it was printed from. */
  lemma RefRead(app: string, path: string, k: ProcessKey)
    requires STATES + app + "/" <= path && HasSuffix(path, JSON) && SlashFree(app)
    ensures RefOf(app, path) == Some(k) <==> k.app == app && Printable(k) && path == Print(STATES, k)
  {
    if RefOf(app, path) == Some(k) {
      PrintedRef(app, path);
    }
    if k.app == app && Printable(k) && path == Print(STATES, k) {
      RefPrinted(app, k);
    }
  }

  // ----- the document store

  class DocStore {
    var bucket: Bucket
    const codec: Codec

    ghost predicate Valid() {
      Faithful(codec)
    }

    ghost function Stored(): Contents
      reads this
    {
      Abs(bucket, codec)
    }

    constructor (bucket: Bucket, codec: Codec)
      requires Faithful(codec)
      ensures Valid() && this.bucket == bucket && this.codec == codec
    {
      this.bucket, this.codec := bucket, codec;
    }

    method Get(path: string, through: bool) returns (r: Result<string, StoreError>)
      ensures r == if !through then Err(Unavailable) else if path in bucket then Ok(bucket[path]) else Err(NotFound)
    {
      if !through {
        return Err(Unavailable);
      }
      if path !in bucket {
        return Err(NotFound);
      }
      return Ok(bucket[path]);
    }

    method List(prefix: string) returns (paths: seq<string>)
      ensures IsListing(paths, bucket, prefix)
    {
      var left := set path | path in bucket && prefix <= path;
      paths := [];
      while left != {}
        invariant forall i, j :: 0 <= i < j < |paths| ==> paths[i] != paths[j]
        invariant forall path :: path in paths || path in left <==> path in bucket && prefix <= path
        invariant forall path :: path in paths ==> path !in left
        decreases left
      {
        var path :| path in left;
        left := left - {path};
        paths := paths + [path];
      }
    }

    method Process(key: ProcessKey, through: bool) returns (r: Result<string, StoreError>)
      requires Valid() && Printable(key)
      ensures r == if !through then Err(Unavailable)
                   else if key in Stored().processes then Ok(Stored().processes[key]) else Err(NotFound)
    {
      r := Get(Print(PROCESSES, key), through);
      KeysExact(bucket, PROCESSES, key);
    }

    method AppSettings(name: string, through: bool) returns (r: Result<string, StoreError>)
      requires Valid()
      ensures r == if !through then Err(Unavailable)
                   else Ok(if name in Stored().apps then Stored().apps[name] else EMPTY_DOC)
    {
      r := Get(PrintApp(name), through);
      NamesExact(bucket, name);
      if r == Err(NotFound) {
        r := Ok(EMPTY_DOC);
      }
    }

    method PutProcess(key: ProcessKey, doc: string, through: bool)
      requires Valid() && Printable(key)
      modifies this
      ensures Valid()
      ensures Stored() == if through then old(Stored()).(processes := old(Stored()).processes[key := doc]) else old(Stored())
    {
      if through {
        WritesCommute(bucket, codec, key, Some(doc), None);
        bucket := bucket[Print(PROCESSES, key) := doc];
      }
    }

    method PutAppSettings(name: string, doc: string, through: bool)
      requires Valid()
      modifies this
      ensures Valid()
      ensures Stored() == if through then old(Stored()).(apps := old(Stored()).apps[name := doc]) else old(Stored())
    {
      if through {
        AppWriteCommutes(bucket, codec, name, doc);
        bucket := bucket[PrintApp(name) := doc];
      }
    }

    method DeleteProcess(key: ProcessKey, through: bool)
      requires Valid() && Printable(key)
      modifies this
      ensures Valid()
      ensures Stored() == if through then old(Stored()).(processes := old(Stored()).processes - {key}) else old(Stored())
    {
      if through {
        WritesCommute(bucket, codec, key, None, None);
        bucket := bucket - {Print(PROCESSES, key)};
      }
    }

    method SetState(key: ProcessKey, state: string, through: bool)
      requires Valid() && Printable(key)
      modifies this
      ensures Valid()
      ensures Stored() == if through then old(Stored()).(states := old(Stored()).states[key := state]) else old(Stored())
    {
      if through {
        WritesCommute(bucket, codec, key, None, Some(state));
        bucket := bucket[Print(STATES, key) := codec.enc(state)];
      }
    }

    method Forget(key: ProcessKey, through: bool)
      requires Valid() && Printable(key)
      modifies this
      ensures Valid()
      ensures Stored() == if through then old(Stored()).(states := old(Stored()).states - {key}) else old(Stored())
    {
      if through {
        WritesCommute(bucket, codec, key, None, None);
        bucket := bucket - {Print(STATES, key)};
      }
    }

    method ProcessIDs(app: string, userId: string, through: bool) returns (r: Result<seq<string>, StoreError>)
      requires Valid() && SlashFree(app) && SlashFree(userId)
      ensures if through then r.Ok? && ListsIds(r.value, Stored(), app, userId) else r == Err(Unavailable)
    {
      if !through {
        return Err(Unavailable);
      }
      var prefix := UserPrefix(app, userId);
      var paths := List(prefix);
      var ids: seq<string> := [];
      for i := 0 to |paths|
        invariant IdsFrom(ids, paths[..i], app, userId)
      {
        assert paths[i] in paths;
        var rest := paths[i][|prefix|..];
        if HasSuffix(rest, JSON) {
          SlashInSuffix(rest);
        }
        IdsFromOneMore(ids, paths, i, app, userId);
        if !HasSuffix(rest, JSON) || !SlashFree(rest) {
          continue;
        }
        ids := ids + [TrimSuffix(rest, JSON)];
      }
      assert paths[..|paths|] == paths;
      IdsAreListed(bucket, codec, ids, paths, app, userId);
      return Ok(ids);
    }

    /** One listing, then one read for every path of a process: all must go through. The list is the
        recorded processes exactly when the bucket has no stray path of the application. */
    method Processes(app: string, through: bool, readable: string -> bool)
      returns (r: Result<seq<ProcessRef>, StoreError>)
      requires Valid() && SlashFree(app)
      ensures r.Ok? <==> through && forall path :: ReadFor(app, path, bucket) ==> readable(path)
      ensures r.Err? ==> r == Err(Unavailable)
      ensures r.Ok? ==>
        exists paths :: IsListing(paths, bucket, STATES + app + "/") && r.value == Reads(paths, app, bucket, codec)
      ensures r.Ok? ==> (ListsRefs(r.value, Stored(), app) <==> NoStray(bucket, codec, app))
    {
      if !through {
        return Err(Unavailable);
      }
      var prefix := STATES + app + "/";
      var paths := List(prefix);
      var refs: seq<ProcessRef> := [];
      for i := 0 to |paths|
        invariant refs == Reads(paths[..i], app, bucket, codec)
        invariant forall j :: 0 <= j < i && ReadFor(app, paths[j], bucket) ==> readable(paths[j])
      {
        assert paths[i] in paths;
        assert paths[..i + 1][..i] == paths[..i];
        var rest := TrimSuffix(paths[i][|prefix|..], JSON);
        var cut := Cut(rest);
        if cut.None? || !SlashFree(cut.value.1) {
          continue;
        }
        assert ReadFor(app, paths[i], bucket);
        var data := Get(paths[i], readable(paths[i]));
        if data.Err? {
          return Err(data.error);
        }
        var state := codec.dec(data.value);
        if state.None? {
          continue;
        }
        refs := refs + [ProcessRef(ProcessKey(app, cut.value.0, cut.value.1), state.value)];
      }
      assert paths[..|paths|] == paths;
      ReadsListed(bucket, codec, paths, app);
      return Ok(refs);
    }
  }

  // ----- when the listing of processes is right

  lemma PrintedSuffix(prefix: string, k: ProcessKey)
    ensures HasSuffix(Print(prefix, k), JSON)
  {
    var head := prefix + (k.app + "/" + (k.userId + "/" + k.processId));
    assert Print(prefix, k) == head + JSON;
    Suffixed(head, JSON);
  }

  /** No write of the store makes a stray path, whatever it puts or deletes. */
  lemma WritesLeaveNoStray(
      b: Bucket, codec: Codec, app: string, prefix: string, key: ProcessKey, name: string, body: Option<string>)
    requires NoStray(b, codec, app)
    ensures NoStray(Written(b, Print(prefix, key), body), codec, app)
    ensures NoStray(Written(b, PrintApp(name), body), codec, app)
  {
    PrintedSuffix(prefix, key);
    assert PrintApp(name) == APPS + name + JSON;
    Suffixed(APPS + name, JSON);
    SuffixedLeavesNoStray(b, codec, app, Print(prefix, key), body);
    SuffixedLeavesNoStray(b, codec, app, PrintApp(name), body);
  }

  lemma SuffixedLeavesNoStray(b: Bucket, codec: Codec, app: string, path: string, body: Option<string>)
    requires NoStray(b, codec, app) && HasSuffix(path, JSON)
    ensures NoStray(Written(b, path, body), codec, app)
  {
    forall p ensures !Stray(Written(b, path, body), codec, app, p) {
      assert !Stray(b, codec, app, p);
    }
  }

  /** What a stray path does: here the listing reports a process nobody recorded. */
  lemma StrayIsMisread(codec: Codec)
    requires Faithful(codec)
    ensures var path := STATES + "a" + "/" + "u/p";
            var b: Bucket := map[path := codec.enc(RUNNING)];
            && ReadAt("a", path, b, codec) == Some(ProcessRef(ProcessKey("a", "u", "p"), RUNNING))
            && StatesIn(b, codec) == map[]
  {
    var path := STATES + "a" + "/" + "u/p";
    var b: Bucket := map[path := codec.enc(RUNNING)];
    var p := STATES + "a" + "/";
    assert path[|p|..] == "u/p";
    assert "u/p" == "u" + ("/" + "p");
    CutJoined("u", "p");
    assert path[|path| - 1] == 'p' && JSON[4] == 'n';
    forall k ensures k !in Keys(b, STATES) {
      KeysExact(b, STATES, k);
      PrintedSuffix(STATES, k);
    }
  }

  lemma {:induction false} ReadsOne(paths: seq<string>, x: nat, app: string, b: Bucket, codec: Codec) returns (i: nat)
    requires x < |paths| && ReadAt(app, paths[x], b, codec).Some?
    ensures i < |Reads(paths, app, b, codec)| && Reads(paths, app, b, codec)[i] == ReadAt(app, paths[x], b, codec).value
  {
    var n := |paths| - 1;
    if x == n {
      i := |Reads(paths[..n], app, b, codec)|;
    } else {
      i := ReadsOne(paths[..n], x, app, b, codec);
    }
  }

  lemma {:induction false} ReadsApart(paths: seq<string>, x: nat, y: nat, app: string, b: Bucket, codec: Codec)
    returns (i: nat, j: nat)
    requires x < y < |paths| && ReadAt(app, paths[x], b, codec).Some? && ReadAt(app, paths[y], b, codec).Some?
    ensures var refs := Reads(paths, app, b, codec);
            && i < j < |refs|
            && refs[i] == ReadAt(app, paths[x], b, codec).value && refs[j] == ReadAt(app, paths[y], b, codec).value
  {
    var n := |paths| - 1;
    if y == n {
      i := ReadsOne(paths[..n], x, app, b, codec);
      j := |Reads(paths[..n], app, b, codec)|;
    } else {
      i, j := ReadsApart(paths[..n], x, y, app, b, codec);
    }
  }

  /** A stray path's process is not recorded, or is listed a second time under its proper path. */
  lemma StrayBreaksListing(b: Bucket, codec: Codec, paths: seq<string>, app: string, x: nat)
    requires IsListing(paths, b, STATES + app + "/") && x < |paths| && Stray(b, codec, app, paths[x])
    ensures !ListsRefs(Reads(paths, app, b, codec), Abs(b, codec), app)
  {
    var refs := Reads(paths, app, b, codec);
    var k := RefOf(app, paths[x]).value;
    var at := ReadsOne(paths, x, app, b, codec);
    KeysExact(b, STATES, k);
    if k in StatesIn(b, codec) {
      PrintedSuffix(STATES, k);
      RefPrinted(app, k);
      var y: nat :| y < |paths| && paths[y] == Print(STATES, k);
      if x < y {
        var i, j := ReadsApart(paths, x, y, app, b, codec);
      } else {
        var i, j := ReadsApart(paths, y, x, app, b, codec);
      }
    }
  }

  lemma {:induction false} ReadsAreFrom(b: Bucket, codec: Codec, paths: seq<string>, app: string)
    requires SlashFree(app) && NoStray(b, codec, app)
    requires forall i, j :: 0 <= i < j < |paths| ==> paths[i] != paths[j]
    requires forall path :: path in paths ==> path in b && STATES + app + "/" <= path
    ensures RefsFrom(Reads(paths, app, b, codec), paths, b, codec, app)
  {
    if paths != [] {
      var n := |paths| - 1;
      assert paths[n] in paths;
      assert forall path :: path in paths[..n] ==> path in paths;
      ReadsAreFrom(b, codec, paths[..n], app);
      assert !Stray(b, codec, app, paths[n]);
      RefsFromOneMore(Reads(paths[..n], app, b, codec), paths, n, b, codec, app);
      assert paths[..n + 1] == paths;
    }
  }

  /** The listing is right if and only if the bucket holds no stray path of the application. */
  lemma ReadsListed(b: Bucket, codec: Codec, paths: seq<string>, app: string)
    requires SlashFree(app) && IsListing(paths, b, STATES + app + "/")
    ensures ListsRefs(Reads(paths, app, b, codec), Abs(b, codec), app) <==> NoStray(b, codec, app)
  {
    if NoStray(b, codec, app) {
      ReadsAreFrom(b, codec, paths, app);
      RefsAreListed(b, codec, Reads(paths, app, b, codec), paths, app);
    } else {
      var path :| Stray(b, codec, app, path);
      assert path in paths;
      var x: nat :| x < |paths| && paths[x] == path;
      StrayBreaksListing(b, codec, paths, app, x);
    }
  }

  /** The processes read off some state paths of an application, each once, with its state. */
  ghost predicate RefsFrom(refs: seq<ProcessRef>, paths: seq<string>, b: Bucket, codec: Codec, app: string) {
    && (forall i, j :: 0 <= i < j < |refs| ==> refs[i].key != refs[j].key)
    && (forall i :: 0 <= i < |refs| ==> RefIn(refs[i].key, paths, app) && StateAt(b, codec, refs[i].key) == Some(refs[i].state))
    && (forall k :: RefIn(k, paths, app) && StateAt(b, codec, k).Some? ==> Listed(refs, k))
  }

  predicate RefIn(k: ProcessKey, paths: seq<string>, app: string) {
    k.app == app && Printable(k) && Print(STATES, k) in paths
  }

  lemma RefsFromOneMore(refs: seq<ProcessRef>, paths: seq<string>, i: nat, b: Bucket, codec: Codec, app: string)
    requires i < |paths| && STATES + app + "/" <= paths[i] && paths[i] in b && SlashFree(app)
    requires forall x, y :: 0 <= x < y < |paths| ==> paths[x] != paths[y]
    requires RefsFrom(refs, paths[..i], b, codec, app) && !Stray(b, codec, app, paths[i])
    ensures var r := ReadAt(app, paths[i], b, codec);
            RefsFrom(refs + if r.Some? then [r.value] else [], paths[..i + 1], b, codec, app)
  {
    var r := ReadAt(app, paths[i], b, codec);
    assert paths[..i + 1] == paths[..i] + [paths[i]];
    forall k
      ensures RefIn(k, paths[..i + 1], app) <==> RefIn(k, paths[..i], app) || (k.app == app && Printable(k) && Print(STATES, k) == paths[i])
      ensures k.app == app && Printable(k) && Print(STATES, k) == paths[i] ==>
                !RefIn(k, paths[..i], app) && StateAt(b, codec, k) == codec.dec(b[paths[i]])
                && (StateAt(b, codec, k).Some? ==> r.Some? && r.value.key == k)
      ensures r.Some? && r.value.key == k ==> k.app == app && Printable(k) && Print(STATES, k) == paths[i]
    {
      PrintedSuffix(STATES, k);
      if HasSuffix(paths[i], JSON) {
        RefRead(app, paths[i], k);
      }
    }
    if r.Some? {
      ListedOneMore(refs, r.value);
    } else {
      assert refs + [] == refs;
    }
  }

  lemma ListedOneMore(refs: seq<ProcessRef>, ref: ProcessRef)
    ensures forall k :: Listed(refs + [ref], k) <==> Listed(refs, k) || k == ref.key
  {
    forall k ensures Listed(refs + [ref], k) <==> Listed(refs, k) || k == ref.key {
      assert (refs + [ref])[|refs|] == ref;
      if Listed(refs, k) {
        var i :| 0 <= i < |refs| && refs[i].key == k;
        assert (refs + [ref])[i].key == k;
      }
    }
  }

  lemma RefsAreListed(b: Bucket, codec: Codec, refs: seq<ProcessRef>, paths: seq<string>, app: string)
    requires SlashFree(app) && RefsFrom(refs, paths, b, codec, app)
    requires forall path :: path in paths <==> path in b && STATES + app + "/" <= path
    ensures ListsRefs(refs, Abs(b, codec), app)
  {
    forall k: ProcessKey
      ensures k.app == app ==> (k in StatesIn(b, codec) <==> RefIn(k, paths, app) && StateAt(b, codec, k).Some?)
    {
      KeysExact(b, STATES, k);
      if k.app == app && Printable(k) {
        RefPrinted(app, k);
      }
    }
  }

  // ----- the memory store

  class MemStore {
    var processes: map<ProcessKey, string>
    var apps: map<string, string>
    var states: map<ProcessKey, string>

    function Stored(): Contents
      reads this
    {
      Contents(processes, apps, states)
    }

    constructor ()
      ensures Stored() == NOTHING
    {
      processes, apps, states := map[], map[], map[];
    }

    method Process(key: ProcessKey) returns (r: Result<string, StoreError>)
      ensures r == if key in Stored().processes then Ok(Stored().processes[key]) else Err(NotFound)
    {
      if key !in processes {
        return Err(NotFound);
      }
      return Ok(processes[key]);
    }

    method AppSettings(name: string) returns (doc: string)
      ensures doc == if name in Stored().apps then Stored().apps[name] else EMPTY_DOC
    {
      doc := EMPTY_DOC;
      if name in apps {
        doc := apps[name];
      }
    }

    method PutProcess(key: ProcessKey, doc: string)
      modifies this
      ensures Stored() == old(Stored()).(processes := old(Stored()).processes[key := doc])
    {
      processes := processes[key := doc];
    }

    method PutAppSettings(name: string, doc: string)
      modifies this
      ensures Stored() == old(Stored()).(apps := old(Stored()).apps[name := doc])
    {
      apps := apps[name := doc];
    }

    method DeleteProcess(key: ProcessKey)
      modifies this
      ensures Stored() == old(Stored()).(processes := old(Stored()).processes - {key})
    {
      processes := processes - {key};
    }

    method SetState(key: ProcessKey, state: string)
      modifies this
      ensures Stored() == old(Stored()).(states := old(Stored()).states[key := state])
    {
      states := states[key := state];
    }

    method Forget(key: ProcessKey)
      modifies this
      ensures Stored() == old(Stored()).(states := old(Stored()).states - {key})
    {
      states := states - {key};
    }

    method ProcessIDs(app: string, userId: string) returns (ids: seq<string>)
      ensures ListsIds(ids, Stored(), app, userId)
    {
      ids := [];
      var left := processes.Keys;
      while left != {}
        invariant left <= processes.Keys
        invariant forall i, j :: 0 <= i < j < |ids| ==> ids[i] != ids[j]
        invariant forall id :: id in ids <==> ProcessKey(app, userId, id) in processes.Keys - left
        decreases left
      {
        var key :| key in left;
        left := left - {key};
        if key.app == app && key.userId == userId {
          ids := ids + [key.processId];
        }
      }
    }

    method Processes(app: string) returns (refs: seq<ProcessRef>)
      ensures ListsRefs(refs, Stored(), app)
    {
      refs := [];
      var left := states.Keys;
      while left != {}
        invariant left <= states.Keys
        invariant forall i, j :: 0 <= i < j < |refs| ==> refs[i].key != refs[j].key
        invariant forall i :: 0 <= i < |refs| ==>
                    refs[i].key.app == app && refs[i].key in states.Keys - left && states[refs[i].key] == refs[i].state
        invariant forall k :: k in states.Keys - left && k.app == app ==> Listed(refs, k)
        decreases left
      {
        var key :| key in left;
        left := left - {key};
        if key.app == app {
          ListedOneMore(refs, ProcessRef(key, states[key]));
          refs := refs + [ProcessRef(key, states[key])];
        }
      }
    }
  }

  /** The two stores list alike: same IDs, same references, each as often, in whatever order. */
  lemma ListingsAgree(
      c: Contents, app: string, userId: string, ids: seq<string>, ids': seq<string>,
      refs: seq<ProcessRef>, refs': seq<ProcessRef>)
    requires ListsIds(ids, c, app, userId) && ListsIds(ids', c, app, userId)
    requires ListsRefs(refs, c, app) && ListsRefs(refs', c, app)
    ensures multiset(ids) == multiset(ids')
    ensures multiset(refs) == multiset(refs')
  {
    SameOnceEach(ids, ids');
    SameRefs(c, app, refs, refs');
    SameRefs(c, app, refs', refs);
    SameOnceEach(refs, refs');
  }

  /** Two lists of the same things, each thing once, have each as often. */
  lemma SameOnceEach<T>(xs: seq<T>, ys: seq<T>)
    requires forall i, j :: 0 <= i < j < |xs| ==> xs[i] != xs[j]
    requires forall i, j :: 0 <= i < j < |ys| ==> ys[i] != ys[j]
    requires forall x :: x in xs <==> x in ys
    ensures multiset(xs) == multiset(ys)
  {
    OnceEach(xs);
    OnceEach(ys);
    forall x ensures multiset(xs)[x] == multiset(ys)[x] {
      assert x in xs <==> x in multiset(xs);
      assert x in ys <==> x in multiset(ys);
    }
  }

  lemma {:induction false} OnceEach<T>(xs: seq<T>)
    requires forall i, j :: 0 <= i < j < |xs| ==> xs[i] != xs[j]
    ensures forall x :: multiset(xs)[x] <= 1
  {
    if xs != [] {
      var n := |xs| - 1;
      OnceEach(xs[..n]);
      assert xs == xs[..n] + [xs[n]];
      assert xs[n] !in xs[..n];
    }
  }

  lemma SameRefs(c: Contents, app: string, refs: seq<ProcessRef>, refs': seq<ProcessRef>)
    requires ListsRefs(refs, c, app) && ListsRefs(refs', c, app)
    ensures forall r :: r in refs ==> r in refs'
  {
    forall r | r in refs ensures r in refs' {
      var i :| 0 <= i < |refs| && refs[i] == r;
      assert Listed(refs', refs[i].key);
      var j :| 0 <= j < |refs'| && refs'[j].key == r.key;
      assert refs'[j] == r;
    }
  }

  /** The IDs read off some paths of a user, each once. */
  ghost predicate IdsFrom(ids: seq<string>, paths: seq<string>, app: string, userId: string) {
    && (forall i, j :: 0 <= i < j < |ids| ==> ids[i] != ids[j])
    && (forall id :: id in ids <==> IdPath(app, userId, id) in paths && SlashFree(id))
  }

  lemma IdsFromOneMore(ids: seq<string>, paths: seq<string>, i: nat, app: string, userId: string)
    requires i < |paths| && UserPrefix(app, userId) <= paths[i]
    requires forall a, b :: 0 <= a < b < |paths| ==> paths[a] != paths[b]
    requires IdsFrom(ids, paths[..i], app, userId)
    ensures var rest := paths[i][|UserPrefix(app, userId)|..];
            if HasSuffix(rest, JSON) && SlashFree(TrimSuffix(rest, JSON))
            then IdsFrom(ids + [TrimSuffix(rest, JSON)], paths[..i + 1], app, userId)
            else IdsFrom(ids, paths[..i + 1], app, userId)
  {
    var rest := paths[i][|UserPrefix(app, userId)|..];
    var id := TrimSuffix(rest, JSON);
    assert paths[..i + 1] == paths[..i] + [paths[i]];
    forall x
      ensures IdPath(app, userId, x) == paths[i] && SlashFree(x) <==> HasSuffix(rest, JSON) && SlashFree(id) && id == x {
      IdRead(app, userId, paths[i], x);
    }
  }

  lemma IdsAreListed(b: Bucket, codec: Codec, ids: seq<string>, paths: seq<string>, app: string, userId: string)
    requires SlashFree(app) && SlashFree(userId) && IdsFrom(ids, paths, app, userId)
    requires forall path :: path in paths <==> path in b && UserPrefix(app, userId) <= path
    ensures ListsIds(ids, Abs(b, codec), app, userId)
  {
    forall id ensures id in ids <==> ProcessKey(app, userId, id) in ProcessesIn(b) {
      KeysExact(b, PROCESSES, ProcessKey(app, userId, id));
      assert IdPath(app, userId, id) == UserPrefix(app, userId) + (id + JSON);
    }
  }
}
