/** Stripping and checking audit payloads (backend/app/audit/service.py). */
module AuditPayload {
  import opened Json
  import opened Prelude

  const UNSAFE_KEYS: set<string> := {
    "raw_text", "raw_ocr", "raw_ocr_text", "raw_pdf", "raw_pdf_text", "gemini_response", "gemini_raw_response",
    "full_gemini_response", "prompt", "full_prompt", "response_body", "request_body", "reviewer_note",
    "raw_reviewer_note", "raw_value", "normalized_value", "verifier_raw_evidence", "raw_provider_body", "raw_response"
  }

  /** Lower-casing a key is a library function. */
  predicate Unsafe(lower: string -> string, key: string) {
    lower(key) in UNSAFE_KEYS
  }

  function Strip(lower: string -> string, j: Json): Json
    decreases j
  {
    match j
    case Dict(entries) => Dict(StripEntries(lower, entries))
    case List(items) => List(StripItems(lower, items))
    case _ => j
  }

  function StripEntries(lower: string -> string, entries: seq<Entry>): seq<Entry>
    decreases entries
  {
    if entries == [] then []
    else
      var e := entries[0];
      (if Unsafe(lower, e.key) then [] else [Entry(e.key, Strip(lower, e.value))]) + StripEntries(lower, entries[1..])
  }

  function StripItems(lower: string -> string, items: seq<Json>): (r: seq<Json>)
    ensures |r| == |items|
    decreases items
  {
    if items == [] then [] else [Strip(lower, items[0])] + StripItems(lower, items[1..])
  }

  /** The first unsafe key met in the payload, lower-cased. */
  function FindUnsafeKey(lower: string -> string, j: Json): Option<string>
    decreases j
  {
    match j
    case Dict(entries) => FindInEntries(lower, entries)
    case List(items) => FindInItems(lower, items)
    case _ => None
  }

  function FindInEntries(lower: string -> string, entries: seq<Entry>): Option<string>
    decreases entries
  {
    if entries == [] then None
    else if Unsafe(lower, entries[0].key) then Some(lower(entries[0].key))
    else
      var nested := FindUnsafeKey(lower, entries[0].value);
      if nested.Some? then nested else FindInEntries(lower, entries[1..])
  }

  function FindInItems(lower: string -> string, items: seq<Json>): Option<string>
    decreases items
  {
    if items == [] then None
    else
      var nested := FindUnsafeKey(lower, items[0]);
      if nested.Some? then nested else FindInItems(lower, items[1..])
  }

  datatype Checked = Safe(payload: Json) | Raised(key: string)

  function AssertAuditSafePayload(lower: string -> string, j: Json): Checked {
    var sanitized := Strip(lower, j);
    match FindUnsafeKey(lower, sanitized)
    case Some(key) => Raised(key)
    case None => Safe(sanitized)
  }

  // ---- Looking into a payload -----------------------------------------------------------------

  datatype Step = Field(key: string) | Item(index: nat)

  function Lookup(entries: seq<Entry>, key: string): Option<Json> {
    if entries == [] then None
    else if entries[0].key == key then Some(entries[0].value)
    else Lookup(entries[1..], key)
  }

  function Descend(j: Json, step: Step): Option<Json> {
    match step
    case Field(key) => if j.Dict? then Lookup(j.entries, key) else None
    case Item(i) => if j.List? && i < |j.items| then Some(j.items[i]) else None
  }

  /** The value found by following a path of keys and positions. */
  function Get(j: Json, path: seq<Step>): Option<Json>
    decreases |path|
  {
    if path == [] then Some(j)
    else
      match Descend(j, path[0])
      case None => None
      case Some(v) => Get(v, path[1..])
  }

  ghost predicate SafePath(lower: string -> string, path: seq<Step>) {
    forall i :: 0 <= i < |path| ==> path[i].Field? ==> !Unsafe(lower, path[i].key)
  }

  // ---- The stripper leaves nothing to find ----------------------------------------------------

  lemma {:induction false} StripIsClean(lower: string -> string, j: Json)
    ensures FindUnsafeKey(lower, Strip(lower, j)) == None
    decreases j
  {
    match j {
      case Dict(entries) => StripEntriesIsClean(lower, entries);
      case List(items) => StripItemsIsClean(lower, items);
      case _ =>
    }
  }

  lemma {:induction false} StripEntriesIsClean(lower: string -> string, entries: seq<Entry>)
    ensures FindInEntries(lower, StripEntries(lower, entries)) == None
    decreases entries
  {
    if entries != [] {
      StripEntriesIsClean(lower, entries[1..]);
      var e, rest := entries[0], StripEntries(lower, entries[1..]);
      if Unsafe(lower, e.key) {
        assert [] + rest == rest;
      } else {
        StripIsClean(lower, e.value);
        assert ([Entry(e.key, Strip(lower, e.value))] + rest)[1..] == rest;
      }
    }
  }

  lemma {:induction false} StripItemsIsClean(lower: string -> string, items: seq<Json>)
    ensures FindInItems(lower, StripItems(lower, items)) == None
    decreases items
  {
    if items != [] {
      StripIsClean(lower, items[0]);
      StripItemsIsClean(lower, items[1..]);
      assert StripItems(lower, items)[1..] == StripItems(lower, items[1..]);
    }
  }

  /** The assertion never raises: it returns the stripped payload. */
  lemma AssertionNeverRaises(lower: string -> string, j: Json)
    ensures AssertAuditSafePayload(lower, j) == Safe(Strip(lower, j))
  {
    StripIsClean(lower, j);
  }

  /** The checker finds nothing exactly in the payloads that stripping leaves alone. */
  lemma {:induction false} CleanIffUnchanged(lower: string -> string, j: Json)
    ensures FindUnsafeKey(lower, j) == None <==> Strip(lower, j) == j
    decreases j
  {
    match j {
      case Dict(entries) => CleanEntriesUnchanged(lower, entries);
      case List(items) => CleanItemsUnchanged(lower, items);
      case _ =>
    }
    if Strip(lower, j) == j {
      StripIsClean(lower, j);
    }
  }

  lemma {:induction false} CleanEntriesUnchanged(lower: string -> string, entries: seq<Entry>)
    ensures FindInEntries(lower, entries) == None ==> StripEntries(lower, entries) == entries
    decreases entries
  {
    if entries != [] {
      CleanIffUnchanged(lower, entries[0].value);
      CleanEntriesUnchanged(lower, entries[1..]);
    }
  }

  lemma {:induction false} CleanItemsUnchanged(lower: string -> string, items: seq<Json>)
    ensures FindInItems(lower, items) == None ==> StripItems(lower, items) == items
    decreases items
  {
    if items != [] {
      CleanIffUnchanged(lower, items[0]);
      CleanItemsUnchanged(lower, items[1..]);
    }
  }

  lemma StripIsIdempotent(lower: string -> string, j: Json)
    ensures Strip(lower, Strip(lower, j)) == Strip(lower, j)
  {
    StripIsClean(lower, j);
    CleanIffUnchanged(lower, Strip(lower, j));
  }

  // ---- The stripper removes nothing else ------------------------------------------------------

  function StripFound(lower: string -> string, found: Option<Json>): Option<Json> {
    match found
    case None => None
    case Some(v) => Some(Strip(lower, v))
  }

  lemma {:induction false} LookupStripped(lower: string -> string, entries: seq<Entry>, key: string)
    ensures Lookup(StripEntries(lower, entries), key) ==
            if Unsafe(lower, key) then None else StripFound(lower, Lookup(entries, key))
  {
    if entries != [] {
      LookupStripped(lower, entries[1..], key);
      var e, rest := entries[0], StripEntries(lower, entries[1..]);
      if Unsafe(lower, e.key) {
        assert [] + rest == rest;
      } else {
        assert ([Entry(e.key, Strip(lower, e.value))] + rest)[1..] == rest;
      }
    }
  }

  lemma {:induction false} ItemStripped(lower: string -> string, items: seq<Json>, i: nat)
    requires i < |items|
    ensures StripItems(lower, items)[i] == Strip(lower, items[i])
  {
    if i > 0 {
      ItemStripped(lower, items[1..], i - 1);
    }
  }

  /** A path through safe keys leads to the stripped value it led to before; any other leads nowhere. */
  lemma {:induction false} StripKeepsSafePaths(lower: string -> string, j: Json, path: seq<Step>)
    ensures Get(Strip(lower, j), path) ==
            if SafePath(lower, path) then StripFound(lower, Get(j, path)) else None
    decreases |path|
  {
    if path != [] {
      var rest := path[1..];
      match path[0] {
        case Field(key) =>
          if j.Dict? {
            LookupStripped(lower, j.entries, key);
          }
        case Item(i) =>
          if j.List? && i < |j.items| {
            ItemStripped(lower, j.items, i);
          }
      }
      match Descend(j, path[0]) {
        case None =>
        case Some(v) => StripKeepsSafePaths(lower, v, rest);
      }
      assert path == [path[0]] + rest;
      assert SafePath(lower, path) <==> (path[0].Field? ==> !Unsafe(lower, path[0].key)) && SafePath(lower, rest);
    }
  }
}
