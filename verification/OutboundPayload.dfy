/** Minimising what is sent to a provider (backend/app/verifier_providers/policies.py). */
module OutboundPayload {
  import opened Json
  import opened Prelude

  const SENSITIVE_KEYS: set<string> := {
    "api_key", "authorization", "document", "document_blob", "document_bytes", "document_content", "document_text",
    "file", "file_bytes", "file_content", "full_document", "full_text", "raw_document", "raw_pdf", "raw_text",
    "source_text"
  }

  const REDACTED := "[redacted]"
  const REDACTED_BYTES := "[redacted-bytes]"
  const OMITTED := "[omitted]"
  const TRUNCATED := "...[truncated]"
  const MAX_ITEMS := 10

  /** Lower-casing is a library function; the two others are the arguments of minimize_payload. */
  datatype Config = Config(lower: string -> string, allowUpload: bool, maxChars: nat)

  // ---- str.strip() ----------------------------------------------------------------------------

  /** str.isspace() */
  predicate Space(c: char) {
    var n := c as int;
    n == 32 || 9 <= n <= 13 || 28 <= n <= 31 || n == 133 || n == 160 || n == 5760 || 8192 <= n <= 8202
    || n == 8232 || n == 8233 || n == 8239 || n == 8287 || n == 12288
  }

  function StripLeft(s: string): string {
    if s != "" && Space(s[0]) then StripLeft(s[1..]) else s
  }

  function StripRight(s: string): string {
    if s != "" && Space(s[|s| - 1]) then StripRight(s[..|s| - 1]) else s
  }

  function StripText(s: string): string {
    StripRight(StripLeft(s))
  }

  predicate Tight(s: string) {
    s != "" ==> !Space(s[0]) && !Space(s[|s| - 1])
  }

  lemma {:induction false} StripLeftStarts(s: string)
    ensures StripLeft(s) == "" || !Space(StripLeft(s)[0])
  {
    if s != "" && Space(s[0]) {
      StripLeftStarts(s[1..]);
    }
  }

  lemma {:induction false} StripRightEnds(s: string)
    ensures StripRight(s) == "" || (!Space(Last(StripRight(s))) && StripRight(s)[0] == s[0])
    decreases |s|
  {
    if s != "" && Space(s[|s| - 1]) {
      StripRightEnds(s[..|s| - 1]);
    }
  }

  /** Stripping yields a text without outer white space, and leaves such a text alone. */
  lemma StripIsTight(s: string)
    ensures Tight(StripText(s)) && (Tight(s) ==> StripText(s) == s)
  {
    StripLeftStarts(s);
    StripRightEnds(StripLeft(s));
  }

  // ---- What one value becomes -----------------------------------------------------------------

  predicate Sensitive(cfg: Config, hint: string) {
    cfg.lower(hint) in SENSITIVE_KEYS && !cfg.allowUpload
  }

  predicate Overlong(cfg: Config, s: string) {
    !cfg.allowUpload && |StripText(s)| > cfg.maxChars
  }

  function Shortened(cfg: Config, s: string): string {
    if Overlong(cfg, s) then StripText(s)[..cfg.maxChars] + TRUNCATED else StripText(s)
  }

  function FirstTen(items: seq<Json>): (r: seq<Json>) {
    if |items| <= MAX_ITEMS then items else items[..MAX_ITEMS]
  }

  /** The value sent in place of `j` under the key `hint`. */
  function Minimized(cfg: Config, hint: string, j: Json): Json
    decreases j, 2
  {
    if Sensitive(cfg, hint) then Text(REDACTED)
    else
      match j
      case Dict(entries) => Dict(MinimizedEntries(cfg, j, |entries|))
      case List(items) => List(MinimizedItems(cfg, hint, j, |FirstTen(items)|))
      case Bytes => Text(REDACTED_BYTES)
      case Text(s) => Text(Shortened(cfg, s))
      case Scalar(_) => j
  }

  /** The first `n` entries of a dictionary, less those that become "[omitted]". */
  function MinimizedEntries(cfg: Config, j: Json, n: nat): seq<Entry>
    requires j.Dict? && n <= |j.entries|
    decreases j, 1, n
  {
    if n == 0 then []
    else
      var (key, value) := (j.entries[n - 1].key, Minimized(cfg, j.entries[n - 1].key, j.entries[n - 1].value));
      MinimizedEntries(cfg, j, n - 1) + (if value == Text(OMITTED) then [] else [Entry(key, value)])
  }

  function MinimizedItems(cfg: Config, hint: string, j: Json, n: nat): (r: seq<Json>)
    requires j.List? && n <= |j.items|
    ensures |r| == n && forall i :: 0 <= i < n ==> r[i] == Minimized(cfg, hint, j.items[i])
    decreases j, 1, n
  {
    if n == 0 then [] else MinimizedItems(cfg, hint, j, n - 1) + [Minimized(cfg, hint, j.items[n - 1])]
  }

  /** Something was redacted on the way. */
  predicate Redacts(cfg: Config, hint: string, j: Json)
    decreases j
  {
    || Sensitive(cfg, hint) || j.Bytes? || (j.Text? && Overlong(cfg, j.chars))
    || (j.Dict? && exists i :: 0 <= i < |j.entries| && Redacts(cfg, j.entries[i].key, j.entries[i].value))
    || (j.List? && exists i :: 0 <= i < |FirstTen(j.items)| && Redacts(cfg, hint, j.items[i]))
  }

  /** The recursive walk and the flag it sets on the way. */
  class Minimizer {
    const cfg: Config
    var redactionApplied: bool

    constructor (cfg: Config)
      ensures this.cfg == cfg && !redactionApplied
    {
      this.cfg := cfg;
      redactionApplied := false;
    }

    method Walk(j: Json, hint: string) returns (r: Json)
      modifies this
      ensures r == Minimized(cfg, hint, j)
      ensures redactionApplied == (old(redactionApplied) || Redacts(cfg, hint, j))
      decreases j, 1
    {
      if Sensitive(cfg, hint) {
        redactionApplied := true;
        return Text(REDACTED);
      }
      match j {
        case Dict(_) =>
          r := WalkEntries(j);
        case List(_) =>
          r := WalkItems(j, hint);
        case Bytes =>
          redactionApplied := true;
          r := Text(REDACTED_BYTES);
        case Text(s) =>
          if Overlong(cfg, s) {
            redactionApplied := true;
          }
          r := Text(Shortened(cfg, s));
        case Scalar(_) =>
          r := j;
      }
    }

    method WalkEntries(j: Json) returns (r: Json)
      requires j.Dict?
      modifies this
      ensures r == Dict(MinimizedEntries(cfg, j, |j.entries|))
      ensures redactionApplied == (
                || old(redactionApplied)
                || exists i :: 0 <= i < |j.entries| && Redacts(cfg, j.entries[i].key, j.entries[i].value))
      decreases j, 0
    {
      var output := [];
      for n := 0 to |j.entries|
        invariant output == MinimizedEntries(cfg, j, n)
        invariant redactionApplied == (old(redactionApplied) ||
                                       exists i :: 0 <= i < n && Redacts(cfg, j.entries[i].key, j.entries[i].value))
      {
        var e := j.entries[n];
        var value := Walk(e.value, e.key);
        if value != Text(OMITTED) {
          output := output + [Entry(e.key, value)];
        }
      }
      r := Dict(output);
    }

    method WalkItems(j: Json, hint: string) returns (r: Json)
      requires j.List?
      modifies this
      ensures r == List(MinimizedItems(cfg, hint, j, |FirstTen(j.items)|))
      ensures redactionApplied == (old(redactionApplied) ||
                                   exists i :: 0 <= i < |FirstTen(j.items)| && Redacts(cfg, hint, j.items[i]))
      decreases j, 0
    {
      var output := [];
      for n := 0 to |FirstTen(j.items)|
        invariant output == MinimizedItems(cfg, hint, j, n)
        invariant redactionApplied ==
                  (old(redactionApplied) || exists i :: 0 <= i < n && Redacts(cfg, hint, j.items[i]))
      {
        var value := Walk(j.items[n], hint);
        output := output + [value];
      }
      r := List(output);
    }
  }

  method MinimizePayload(cfg: Config, entries: seq<Entry>) returns (minimized: Json, redactionApplied: bool)
    ensures minimized == Minimized(cfg, "", Dict(entries))
    ensures redactionApplied == Redacts(cfg, "", Dict(entries))
  {
    var walker := new Minimizer(cfg);
    minimized := walker.Walk(Dict(entries), "");
    redactionApplied := walker.redactionApplied;
  }

  // ---- Minimising twice -----------------------------------------------------------------------

  /** Uploads are allowed, or a text may be at least as long as the marker put in the place of bytes. */
  predicate RoomForMarkers(cfg: Config) {
    cfg.allowUpload || cfg.maxChars >= |REDACTED_BYTES|
  }

  lemma ShortenedTwice(cfg: Config, s: string)
    ensures Shortened(cfg, Shortened(cfg, s)) == Shortened(cfg, s)
  {
    StripIsTight(s);
    var once := Shortened(cfg, s);
    if Overlong(cfg, s) {
      assert once == StripText(s)[..cfg.maxChars] + TRUNCATED;
      assert once[|once| - 1] == ']' && (cfg.maxChars == 0 ==> once[0] == '.');
      assert cfg.maxChars > 0 ==> once[0] == StripText(s)[0];
      assert Tight(once);
      StripIsTight(once);
      assert once[..cfg.maxChars] == StripText(s)[..cfg.maxChars];
    } else {
      StripIsTight(once);
    }
  }

  lemma MarkerStays(cfg: Config)
    requires RoomForMarkers(cfg)
    ensures Shortened(cfg, REDACTED_BYTES) == REDACTED_BYTES
  {
    assert Tight(REDACTED_BYTES);
    StripIsTight(REDACTED_BYTES);
  }

  lemma {:induction false} MinimizedTwice(cfg: Config, hint: string, j: Json)
    requires RoomForMarkers(cfg)
    ensures Minimized(cfg, hint, Minimized(cfg, hint, j)) == Minimized(cfg, hint, j)
    decreases j, 2
  {
    if !Sensitive(cfg, hint) {
      match j {
        case Dict(entries) =>
          EntriesTwice(cfg, j, |entries|);
        case List(items) =>
          ItemsTwice(cfg, hint, j);
        case Bytes =>
          MarkerStays(cfg);
        case Text(s) =>
          ShortenedTwice(cfg, s);
        case Scalar(_) =>
      }
    }
  }

  /** Minimising the first entries of a minimised dictionary changes none of them. */
  lemma {:induction false} EntriesTwice(cfg: Config, j: Json, n: nat)
    requires RoomForMarkers(cfg) && j.Dict? && n <= |j.entries|
    ensures var once := MinimizedEntries(cfg, j, n);
            MinimizedEntries(cfg, Dict(once), |once|) == once
    decreases j, 1, n
  {
    if n > 0 {
      EntriesTwice(cfg, j, n - 1);
      var e := j.entries[n - 1];
      MinimizedTwice(cfg, e.key, e.value);
      var before, value := MinimizedEntries(cfg, j, n - 1), Minimized(cfg, e.key, e.value);
      if value == Text(OMITTED) {
        assert before + [] == before;
      } else {
        OneMoreEntry(cfg, before, Entry(e.key, value));
      }
    }
  }

  /** An entry that minimising leaves alone, added to entries that it leaves alone. */
  lemma OneMoreEntry(cfg: Config, before: seq<Entry>, e: Entry)
    requires MinimizedEntries(cfg, Dict(before), |before|) == before
    requires Minimized(cfg, e.key, e.value) == e.value != Text(OMITTED)
    ensures MinimizedEntries(cfg, Dict(before + [e]), |before| + 1) == before + [e]
  {
    var after := Dict(before + [e]);
    assert after.entries[|before|] == e;
    EntriesOfPrefix(cfg, Dict(before), after, |before|);
    assert MinimizedEntries(cfg, after, |before|) == before;
  }

  lemma {:induction false} EntriesOfPrefix(cfg: Config, a: Json, b: Json, n: nat)
    requires a.Dict? && b.Dict? && n <= |a.entries| && n <= |b.entries|
    requires forall i :: 0 <= i < n ==> a.entries[i] == b.entries[i]
    ensures MinimizedEntries(cfg, a, n) == MinimizedEntries(cfg, b, n)
    decreases n
  {
    if n > 0 {
      EntriesOfPrefix(cfg, a, b, n - 1);
    }
  }

  lemma {:induction false} ItemsTwice(cfg: Config, hint: string, j: Json)
    requires RoomForMarkers(cfg) && j.List?
    ensures var once := MinimizedItems(cfg, hint, j, |FirstTen(j.items)|);
            MinimizedItems(cfg, hint, List(once), |FirstTen(once)|) == once
    decreases j, 1, 0
  {
    var once := MinimizedItems(cfg, hint, j, |FirstTen(j.items)|);
    forall i | 0 <= i < |once|
      ensures Minimized(cfg, hint, once[i]) == once[i]
    {
      MinimizedTwice(cfg, hint, j.items[i]);
    }
  }

  /** With less room the marker put in the place of bytes is itself cut short the second time. */
  lemma MarkerIsCut(cfg: Config)
    requires !RoomForMarkers(cfg)
    ensures Shortened(cfg, REDACTED_BYTES) != REDACTED_BYTES
  {
    assert Tight(REDACTED_BYTES);
    StripIsTight(REDACTED_BYTES);
    var cut := Shortened(cfg, REDACTED_BYTES);
    assert cut[cfg.maxChars] == TRUNCATED[0] == '.';
    assert forall i :: 0 <= i < |REDACTED_BYTES| ==> REDACTED_BYTES[i] != '.';
  }

  lemma OneEntry(cfg: Config, key: string, j: Json)
    requires cfg.lower("") !in SENSITIVE_KEYS
    ensures var m := Minimized(cfg, key, j);
            Minimized(cfg, "", Dict([Entry(key, j)])) == Dict(if m == Text(OMITTED) then [] else [Entry(key, m)])
  {
    var d := Dict([Entry(key, j)]);
    assert MinimizedEntries(cfg, d, 0) == [];
    assert d.entries[0] == Entry(key, j);
  }

  /** Minimising is idempotent on every payload exactly when there is room for the markers. */
  lemma IdempotentIff(cfg: Config, key: string)
    requires cfg.lower(key) !in SENSITIVE_KEYS && cfg.lower("") !in SENSITIVE_KEYS
    ensures (forall entries :: var once := Minimized(cfg, "", Dict(entries)); Minimized(cfg, "", once) == once)
            <==> RoomForMarkers(cfg)
  {
    if RoomForMarkers(cfg) {
      forall entries
        ensures var once := Minimized(cfg, "", Dict(entries)); Minimized(cfg, "", once) == once
      {
        MinimizedTwice(cfg, "", Dict(entries));
      }
    } else {
      MarkerIsCut(cfg);
      OneEntry(cfg, key, Bytes);
      OneEntry(cfg, key, Text(REDACTED_BYTES));
      assert |REDACTED_BYTES| != |OMITTED|;
      var once := Minimized(cfg, "", Dict([Entry(key, Bytes)]));
      assert once == Dict([Entry(key, Text(REDACTED_BYTES))]);
      assert Minimized(cfg, "", once) != once;
    }
  }

  // ---- What leaves the system -----------------------------------------------------------------

  /** A value as it may leave: nothing under a sensitive key, no bytes, no long list, no long text. */
  ghost predicate FitToSend(cfg: Config, hint: string, j: Json)
    decreases j
  {
    if Sensitive(cfg, hint) then j == Text(REDACTED)
    else
      match j
      case Dict(entries) => EntriesFit(cfg, entries)
      case List(items) => |items| <= MAX_ITEMS && forall i :: 0 <= i < |items| ==> FitToSend(cfg, hint, items[i])
      case Bytes => false
      case Text(s) => Tight(s) && (cfg.allowUpload || |s| <= cfg.maxChars + |TRUNCATED| || s == REDACTED_BYTES)
      case Scalar(_) => true
  }

  ghost predicate EntriesFit(cfg: Config, entries: seq<Entry>)
    decreases entries
  {
    entries != [] ==>
      && EntriesFit(cfg, entries[..|entries| - 1])
      && FitToSend(cfg, entries[|entries| - 1].key, entries[|entries| - 1].value)
  }

  /** What leaves is fit to send, whatever came in. */
  lemma {:induction false} MinimizedIsFit(cfg: Config, hint: string, j: Json)
    ensures FitToSend(cfg, hint, Minimized(cfg, hint, j))
    decreases j, 2
  {
    if !Sensitive(cfg, hint) {
      match j {
        case Dict(entries) =>
          EntriesAreFit(cfg, j, |entries|);
        case List(items) =>
          forall i | 0 <= i < |FirstTen(items)|
            ensures FitToSend(cfg, hint, Minimized(cfg, hint, items[i]))
          {
            MinimizedIsFit(cfg, hint, items[i]);
          }
        case Bytes =>
          assert Tight(REDACTED_BYTES);
        case Text(s) =>
          ShortenedIsTight(cfg, s);
        case Scalar(_) =>
      }
    }
  }

  lemma ShortenedIsTight(cfg: Config, s: string)
    ensures Tight(Shortened(cfg, s))
  {
    ShortenedTwice(cfg, s);
    StripIsTight(s);
    var once := Shortened(cfg, s);
    if Overlong(cfg, s) {
      assert once[|once| - 1] == ']' && (cfg.maxChars == 0 ==> once[0] == '.');
      assert cfg.maxChars > 0 ==> once[0] == StripText(s)[0];
    }
  }

  lemma {:induction false} EntriesAreFit(cfg: Config, j: Json, n: nat)
    requires j.Dict? && n <= |j.entries|
    ensures EntriesFit(cfg, MinimizedEntries(cfg, j, n))
    decreases j, 1, n
  {
    if n > 0 {
      EntriesAreFit(cfg, j, n - 1);
      var e := j.entries[n - 1];
      MinimizedIsFit(cfg, e.key, e.value);
      var before, value := MinimizedEntries(cfg, j, n - 1), Minimized(cfg, e.key, e.value);
      assert before + [] == before && (before + [Entry(e.key, value)])[..|before|] == before;
    }
  }

  // ---- What the flag tells --------------------------------------------------------------------

  /** The walk, following positions, comes to the value `v` under the key `at`. */
  ghost predicate Visits(cfg: Config, hint: string, j: Json, path: seq<nat>, at: string, v: Json)
    decreases |path|
  {
    if path == [] then hint == at && j == v
    else if Sensitive(cfg, hint) then false
    else
      var i := path[0];
      || (j.Dict? && i < |j.entries| && Visits(cfg, j.entries[i].key, j.entries[i].value, path[1..], at, v))
      || (j.List? && i < |FirstTen(j.items)| && Visits(cfg, hint, j.items[i], path[1..], at, v))
  }

  /** A sensitive key, bytes, or an overlong text. */
  predicate MustRedact(cfg: Config, at: string, v: Json) {
    Sensitive(cfg, at) || v.Bytes? || (v.Text? && Overlong(cfg, v.chars))
  }

  ghost predicate ComesTo(cfg: Config, hint: string, j: Json, path: seq<nat>, at: string, v: Json) {
    Visits(cfg, hint, j, path, at, v) && MustRedact(cfg, at, v)
  }

  lemma {:induction false} RedactsMeansVisited(cfg: Config, hint: string, j: Json)
    returns (path: seq<nat>, at: string, v: Json)
    requires Redacts(cfg, hint, j)
    ensures ComesTo(cfg, hint, j, path, at, v)
    decreases j
  {
    if MustRedact(cfg, hint, j) {
      path, at, v := [], hint, j;
    } else if j.Dict? {
      var i :| 0 <= i < |j.entries| && Redacts(cfg, j.entries[i].key, j.entries[i].value);
      path, at, v := RedactsMeansVisited(cfg, j.entries[i].key, j.entries[i].value);
      assert ([i] + path)[1..] == path;
      path := [i] + path;
    } else {
      var i :| 0 <= i < |FirstTen(j.items)| && Redacts(cfg, hint, j.items[i]);
      path, at, v := RedactsMeansVisited(cfg, hint, j.items[i]);
      assert ([i] + path)[1..] == path;
      path := [i] + path;
    }
  }

  lemma {:induction false} VisitedMeansRedacts(
    cfg: Config, hint: string, j: Json, path: seq<nat>, at: string, v: Json)
    requires ComesTo(cfg, hint, j, path, at, v)
    ensures Redacts(cfg, hint, j)
    decreases |path|
  {
    if path != [] {
      var i := path[0];
      if j.Dict? && i < |j.entries| && Visits(cfg, j.entries[i].key, j.entries[i].value, path[1..], at, v) {
        VisitedMeansRedacts(cfg, j.entries[i].key, j.entries[i].value, path[1..], at, v);
      } else {
        VisitedMeansRedacts(cfg, hint, j.items[i], path[1..], at, v);
      }
    }
  }

  /** The flag is set exactly when the walk came to something it had to redact. */
  lemma FlagIff(cfg: Config, hint: string, j: Json)
    ensures Redacts(cfg, hint, j) <==>
            exists path: seq<nat>, at, v :: ComesTo(cfg, hint, j, path, at, v)
  {
    if Redacts(cfg, hint, j) {
      var path, at, v := RedactsMeansVisited(cfg, hint, j);
    }
    forall path: seq<nat>, at, v | ComesTo(cfg, hint, j, path, at, v)
      ensures Redacts(cfg, hint, j)
    {
      VisitedMeansRedacts(cfg, hint, j, path, at, v);
    }
  }
}
