/** Fitting a JSON payload into a prompt: trimmed history first, then ever tighter truncation. */
module PayloadCompaction {
  import opened Prelude

  datatype Json =
    | Null
    | Bool(value: bool)
    | Number(text: string)
    | Str(s: string)
    | List(items: seq<Json>)
    | Obj(fields: seq<(string, Json)>)

  const MARKER := "…[truncated]"

  function CutString(s: string, maxChars: nat): string {
    if |s| <= maxChars then s else s[..maxChars] + MARKER
  }

  /** `_truncate_value`: long strings keep a prefix, long lists their tail, objects all their keys. */
  function Truncate(v: Json, maxChars: nat, maxItems: nat): Json {
    match v
    case Str(s) => Str(CutString(s, maxChars))
    case List(items) =>
      var n := if |items| > maxItems then maxItems else |items|;
      List(seq(n, i requires 0 <= i < n => Truncate(items[|items| - n + i], maxChars, maxItems)))
    case Obj(fields) =>
      Obj(seq(|fields|, i requires 0 <= i < |fields| => (fields[i].0, Truncate(fields[i].1, maxChars, maxItems))))
    case _ => v
  }

  // ---- Where things are: keys by name, list items by distance from the end ----

  datatype Step = Key(k: string) | FromEnd(i: nat)

  function Field(fields: seq<(string, Json)>, k: string): Option<Json> {
    if fields == [] then None
    else if fields[0].0 == k then Some(fields[0].1)
    else Field(fields[1..], k)
  }

  function Lookup(v: Json, path: seq<Step>): Option<Json>
    decreases |path|
  {
    if path == [] then Some(v)
    else match path[0]
      case Key(k) =>
        if v.Obj? && Field(v.fields, k).Some? then Lookup(Field(v.fields, k).value, path[1..]) else None
      case FromEnd(i) =>
        if v.List? && i < |v.items| then Lookup(v.items[|v.items| - 1 - i], path[1..]) else None
  }

  /** The path never reaches further back than the items a truncated list keeps. */
  predicate Kept(path: seq<Step>, maxItems: nat) {
    forall j :: 0 <= j < |path| && path[j].FromEnd? ==> path[j].i < maxItems
  }

  lemma {:induction false} FieldOfTruncated(fields: seq<(string, Json)>, k: string, maxChars: nat, maxItems: nat)
    ensures var cut := seq(|fields|, i requires 0 <= i < |fields| => (fields[i].0, Truncate(fields[i].1, maxChars, maxItems)));
      Field(cut, k) == match Field(fields, k) case None => None case Some(v) => Some(Truncate(v, maxChars, maxItems))
  {
    var cut := seq(|fields|, i requires 0 <= i < |fields| => (fields[i].0, Truncate(fields[i].1, maxChars, maxItems)));
    if fields != [] {
      var rest := fields[1..];
      assert cut[1..] == seq(|rest|, i requires 0 <= i < |rest| => (rest[i].0, Truncate(rest[i].1, maxChars, maxItems)));
      FieldOfTruncated(rest, k, maxChars, maxItems);
    }
  }

  /**
    * Truncation by paths: what is found at a path afterwards is the truncation of what was there before, and it is found
    * exactly when it was there and no list on the way dropped it.
    */
  lemma {:induction false} TruncationKeepsPaths(v: Json, path: seq<Step>, maxChars: nat, maxItems: nat)
    ensures Lookup(Truncate(v, maxChars, maxItems), path)
         == if Lookup(v, path).Some? && Kept(path, maxItems) then Some(Truncate(Lookup(v, path).value, maxChars, maxItems)) else None
    decreases |path|
  {
    if path != [] {
      var rest := path[1..];
      assert Kept(path, maxItems) <==> (path[0].FromEnd? ==> path[0].i < maxItems) && Kept(rest, maxItems) by {
        if Kept(rest, maxItems) {
          assert forall j :: 0 < j < |path| ==> path[j] == rest[j - 1];
        }
      }
      match path[0]
      case Key(k) =>
        if v.Obj? {
          FieldOfTruncated(v.fields, k, maxChars, maxItems);
          if Field(v.fields, k).Some? {
            TruncationKeepsPaths(Field(v.fields, k).value, rest, maxChars, maxItems);
          }
        }
      case FromEnd(i) =>
        if v.List? && i < |v.items| {
          TruncationKeepsPaths(v.items[|v.items| - 1 - i], rest, maxChars, maxItems);
        }
    }
  }

  lemma {:induction false} CutTwice(s: string, maxChars: nat)
    ensures CutString(CutString(s, maxChars), maxChars) == CutString(s, maxChars)
  {
    if |s| > maxChars {
      assert (s[..maxChars] + MARKER)[..maxChars] == s[..maxChars];
    }
  }

  /** Truncating twice is truncating once. */
  lemma {:induction false} TruncateIdempotent(v: Json, maxChars: nat, maxItems: nat)
    ensures Truncate(Truncate(v, maxChars, maxItems), maxChars, maxItems) == Truncate(v, maxChars, maxItems)
  {
    var w := Truncate(v, maxChars, maxItems);
    match v
    case Str(s) => CutTwice(s, maxChars);
    case List(items) =>
      forall i | 0 <= i < |w.items| ensures Truncate(w.items[i], maxChars, maxItems) == w.items[i] {
        TruncateIdempotent(items[|items| - |w.items| + i], maxChars, maxItems);
      }
      assert Truncate(w, maxChars, maxItems).items == w.items;
    case Obj(fields) =>
      forall i | 0 <= i < |w.fields| ensures Truncate(w.fields[i].1, maxChars, maxItems) == w.fields[i].1 {
        TruncateIdempotent(fields[i].1, maxChars, maxItems);
      }
      assert Truncate(w, maxChars, maxItems).fields == w.fields;
    case _ =>
  }

  // ---- Compaction ----

  /** String and item limits, loosest first; the last resort follows them. */
  const LEVELS: seq<(nat, nat)> := [(4000, 12), (2500, 8), (1500, 6), (800, 5), (400, 4), (200, 3)]

  const LAST_RESORT: (nat, nat) := (120, 2)

  /** The conversation history, if it is a list, cut to its last four messages. */
  function TrimHistory(fields: seq<(string, Json)>): seq<(string, Json)> {
    seq(|fields|, i requires 0 <= i < |fields| =>
      if fields[i].0 == "history" && fields[i].1.List?
      then ("history", List(LastN(fields[i].1.items, 4)))
      else fields[i])
  }

  function AtLevel(fields: seq<(string, Json)>, level: (nat, nat)): Json {
    Truncate(Obj(TrimHistory(fields)), level.0, level.1)
  }

  /**
    * `_compact_payload`, for any way of measuring a payload: unchanged if it fits, else at the loosest level that fits;
    * only when no level fits does the last resort apply, and only it may overflow.
    */
  method CompactPayload(fields: seq<(string, Json)>, size: Json -> nat, maxChars: nat) returns (result: Json, compacted: bool)
    ensures !compacted <==> size(Obj(fields)) <= maxChars
    ensures !compacted ==> result == Obj(fields)
    ensures compacted && (exists k :: 0 <= k < |LEVELS| && size(AtLevel(fields, LEVELS[k])) <= maxChars)
            ==> exists k :: 0 <= k < |LEVELS| && result == AtLevel(fields, LEVELS[k]) && size(result) <= maxChars
                            && forall j :: 0 <= j < k ==> size(AtLevel(fields, LEVELS[j])) > maxChars
    ensures compacted && (forall k :: 0 <= k < |LEVELS| ==> size(AtLevel(fields, LEVELS[k])) > maxChars)
            ==> result == AtLevel(fields, LAST_RESORT)
    ensures size(result) > maxChars ==> result == AtLevel(fields, LAST_RESORT)
  {
    if size(Obj(fields)) <= maxChars {
      return Obj(fields), false;
    }
    compacted := true;
    for k := 0 to |LEVELS|
      invariant forall j :: 0 <= j < k ==> size(AtLevel(fields, LEVELS[j])) > maxChars
    {
      result := AtLevel(fields, LEVELS[k]);
      if size(result) <= maxChars {
        return;
      }
    }
    result := AtLevel(fields, LAST_RESORT);
  }

  lemma {:induction false} HistoryField(fields: seq<(string, Json)>, k: string)
    ensures Field(TrimHistory(fields), k)
         == if k == "history" && Field(fields, k).Some? && Field(fields, k).value.List?
            then Some(List(LastN(Field(fields, k).value.items, 4))) else Field(fields, k)
  {
    if fields != [] {
      assert TrimHistory(fields)[1..] == TrimHistory(fields[1..]);
      HistoryField(fields[1..], k);
    }
  }

  /** Compaction at any level loses no key, and touches nothing outside the history and the truncated values. */
  lemma {:induction false} CompactionKeepsFields(fields: seq<(string, Json)>, k: string, level: (nat, nat))
    ensures Lookup(AtLevel(fields, level), [Key(k)]).Some? <==> Field(fields, k).Some?
    ensures k != "history" && Field(fields, k).Some?
            ==> Lookup(AtLevel(fields, level), [Key(k)]) == Some(Truncate(Field(fields, k).value, level.0, level.1))
    ensures k == "history" && Field(fields, k).Some? && Field(fields, k).value.List?
            ==> Lookup(AtLevel(fields, level), [Key(k)])
                == Some(Truncate(List(LastN(Field(fields, k).value.items, 4)), level.0, level.1))
  {
    TruncationKeepsPaths(Obj(TrimHistory(fields)), [Key(k)], level.0, level.1);
    HistoryField(fields, k);
    assert [Key(k)][1..] == [];
  }

  // ---- Budgets of the two attempts ----

  function Min(a: int, b: int): int {
    if a < b then a else b
  }

  /** Characters left for the payload once the reserve, the system prompt and the schema are taken off the context. */
  function BaseBudget(contextTokens: nat, configuredReserve: int, charsPerToken: real, systemChars: nat, schemaChars: nat): int {
    var reserve := Min(Max(256, configuredReserve), Max(256, contextTokens / 2));
    var usable := (Max(512, contextTokens - reserve) as real * charsPerToken).Floor;
    Max(2000, usable - (systemChars + schemaChars + 1800))
  }

  /** The second attempt gets the given part of the first one's budget, within bounds of its own. */
  function AttemptBudget(base: int, attempt: nat, part: real): int {
    if attempt <= 1 then base else Max(1200, Min(3000, part.Floor))
  }

  /**
    * A retry never repeats an oversized prompt: its budget is smaller, whatever the configuration and however
    * the product of the first budget and 0.40 is rounded, as long as it stays below the first budget.
    */
  lemma {:induction false} RetryBudgetIsSmaller(contextTokens: nat, reserve: int, charsPerToken: real, systemChars: nat, schemaChars: nat, part: real)
    requires part < BaseBudget(contextTokens, reserve, charsPerToken, systemChars, schemaChars) as real
    ensures var base := BaseBudget(contextTokens, reserve, charsPerToken, systemChars, schemaChars);
      1200 <= AttemptBudget(base, 2, part) < AttemptBudget(base, 1, part)
  {
  }
}
