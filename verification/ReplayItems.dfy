/** Conversation items as the replay code reads them, and the check that every tool output
    in a replayed conversation comes with the call it answers. */
module ReplayItems {
  const MAX_ITEMS: int := 4096
  const MAX_BYTES: int := 4 * 1024 * 1024

  /** The decoded JSON of an item. Strings are trimmed, and empty when absent; `typed` says
      that type, id and call_id are strings where present; `rest` stands
      for everything the replay code does not look at. */
  datatype Value =
    | Object(kind: string, callID: string, id: string, typed: bool, rest: nat)
    | NotAnObject(rest: nat)

  /** One raw item: its value if it decodes, which of the spellings of that value it is,
      and its length in bytes. */
  datatype Item = Item(value: Value, decodes: bool, spelling: nat, size: nat)

  function Size(items: seq<Item>): nat {
    if items == [] then 0 else Size(items[..|items| - 1]) + items[|items| - 1].size
  }

  lemma {:induction false} SizeConcat(a: seq<Item>, b: seq<Item>)
    ensures Size(a + b) == Size(a) + Size(b)
  {
    if b == [] {
      assert a + b == a;
    } else {
      SizeConcat(a, b[..|b| - 1]);
      assert (a + b)[..|a + b| - 1] == a + b[..|b| - 1];
    }
  }

  predicate LimitExceeded(items: int, bytes: int) {
    items > MAX_ITEMS || bytes > MAX_BYTES
  }

  /** Few and short enough to be replayed. */
  predicate InLimits(items: int, bytes: int) {
    items <= 4096 && bytes <= 4 * 1024 * 1024
  }

  // ---- tool contexts -----------------------------------------------------------

  predicate IsCall(kind: string) {
    kind in ["tool_call", "function_call", "local_shell_call", "tool_search_call", "custom_tool_call", "mcp_tool_call"]
  }

  predicate IsOutput(kind: string) {
    kind in ["function_call_output", "local_shell_call_output", "tool_search_output", "custom_tool_call_output", "mcp_tool_call_output"]
  }

  predicate HasSuffix(s: string, suffix: string) {
    |suffix| <= |s| && s[|s| - |suffix|..] == suffix
  }

  predicate Readable(x: Item) {
    x.decodes && x.value.Object?
  }

  /** Items that tie the conversation to one account or connection. */
  predicate Bound(x: Item) {
    Readable(x) && !IsCall(x.value.kind) && (
      || x.value.kind == "item_reference"
      || (IsOutput(x.value.kind) && x.value.callID == "")
      || (!IsOutput(x.value.kind) && HasSuffix(x.value.kind, "_call_output")))
  }

  /** The call ids a list of items provides. */
  function Contexts(items: seq<Item>): set<string> {
    set x | x in items && Readable(x) && IsCall(x.value.kind) && x.value.callID != "" :: x.value.callID
  }

  /** The call ids its outputs refer to. */
  function Required(items: seq<Item>): set<string> {
    set x | x in items && Readable(x) && IsOutput(x.value.kind) :: x.value.callID
  }

  predicate Portable(items: seq<Item>) {
    forall x <- items :: !Bound(x)
  }

  /** The whole list can be replayed on another account. */
  predicate Complete(items: seq<Item>) {
    Portable(items) && Required(items) <= Contexts(items)
  }

  lemma CallsAreNoOutputs(kind: string)
    requires IsCall(kind)
    ensures kind != "item_reference" && !IsOutput(kind) && !HasSuffix(kind, "_call_output")
  {
    assert kind[|kind| - 1] == 'l';
  }

  /** A conversation is complete exactly when nothing in it refers to an item stored elsewhere,
      and every tool output is of a known kind, names its call, and finds a call of that id. */
  lemma CompleteIsAnswered(items: seq<Item>)
    ensures Complete(items) <==> forall x <- items :: Readable(x) ==>
      && x.value.kind != "item_reference"
      && (HasSuffix(x.value.kind, "_call_output") ==> IsOutput(x.value.kind))
      && (IsOutput(x.value.kind) ==> x.value.callID != "" && exists y :: y in items && Readable(y) && IsCall(y.value.kind) && y.value.callID == x.value.callID)
  {
    forall x | x in items && Readable(x) && IsCall(x.value.kind)
      ensures x.value.kind != "item_reference" && !IsOutput(x.value.kind) && !HasSuffix(x.value.kind, "_call_output")
    {
      CallsAreNoOutputs(x.value.kind);
    }
    hide IsCall, IsOutput, HasSuffix;
    if Complete(items) {
      forall x | x in items && Readable(x) && IsOutput(x.value.kind)
        ensures x.value.callID != "" && exists y :: y in items && Readable(y) && IsCall(y.value.kind) && y.value.callID == x.value.callID
      {
        assert !Bound(x) && x.value.callID in Required(items) && x.value.callID in Contexts(items);
      }
    }
  }

  /** New items can be added to a conversation that provides `existing`. */
  predicate Extends(existing: set<string>, items: seq<Item>) {
    Portable(items) && Required(items) <= Contexts(items) + existing
  }

  /** Checking only the new items against the stored contexts decides exactly the same as
      checking the whole conversation. */
  lemma IncrementalIsBatch(history: seq<Item>, items: seq<Item>)
    requires Complete(history)
    ensures Extends(Contexts(history), items) <==> Complete(history + items)
    ensures Contexts(history + items) == Contexts(history) + Contexts(items)
  {
    ContextsConcat(history, items);
    if Complete(history + items) {
      forall x | x in items ensures !Bound(x) {
        assert x in history + items;
      }
      assert Required(items) <= Required(history + items);
    }
  }

  lemma ContextsConcat(a: seq<Item>, b: seq<Item>)
    ensures Contexts(a + b) == Contexts(a) + Contexts(b)
    ensures Required(a + b) == Required(a) + Required(b)
    ensures Portable(a + b) <==> Portable(a) && Portable(b)
  {
    assert forall x :: x in a + b <==> x in a || x in b;
  }

  // ---- resent conversations -----------------------------------------------------

  /** Equal bytes, or different spellings of the same JSON. */
  predicate SameItem(x: Item, y: Item) {
    x.value == y.value && x.decodes == y.decodes && (x.spelling == y.spelling || x.decodes)
  }

  predicate HasPrefix(items: seq<Item>, prefix: seq<Item>) {
    |prefix| <= |items| && forall i :: 0 <= i < |prefix| ==> SameItem(items[i], prefix[i])
  }

  lemma SameListSameChecks(a: seq<Item>, b: seq<Item>)
    requires |a| == |b| && forall i :: 0 <= i < |a| ==> SameItem(a[i], b[i])
    ensures Contexts(a) <= Contexts(b) && Required(a) <= Required(b) && (Portable(b) ==> Portable(a))
  {
    forall x | x in a ensures exists y :: y in b && SameItem(x, y) {
      var i :| 0 <= i < |a| && a[i] == x;
      assert b[i] in b;
    }
  }

  /** A resent history checks exactly like the stored one. */
  lemma SamePrefixSameContexts(items: seq<Item>, prefix: seq<Item>)
    requires HasPrefix(items, prefix)
    ensures Contexts(items[..|prefix|]) == Contexts(prefix) && (Complete(items[..|prefix|]) <==> Complete(prefix))
  {
    SameListSameChecks(items[..|prefix|], prefix);
    SameListSameChecks(prefix, items[..|prefix|]);
  }

  // ---- the imperative forms --------------------------------------------------------

  function Flat(groups: seq<seq<Item>>): seq<Item> {
    if groups == [] then [] else Flat(groups[..|groups| - 1]) + groups[|groups| - 1]
  }

  method ScanItems(items: seq<Item>, contexts0: set<string>, required0: seq<string>, ghost before: seq<Item>)
    returns (ok: bool, contexts: set<string>, required: seq<string>)
    requires Portable(before) && contexts0 == Contexts(before) && (set id | id in required0) == Required(before)
    ensures ok == Portable(items)
    ensures ok ==> Portable(before + items) && contexts == Contexts(before + items) && (set id | id in required) == Required(before + items)
  {
    contexts, required := contexts0, required0;
    assert before + items[..0] == before;
    for i := 0 to |items|
      invariant Portable(before + items[..i]) && contexts == Contexts(before + items[..i])
      invariant (set id | id in required) == Required(before + items[..i])
    {
      var x := items[i];
      OneMore(before, items, i);
      if Bound(x) {
        assert x in items;
        return false, contexts, required;
      }
      if Readable(x) && IsCall(x.value.kind) {
        if x.value.callID != "" {
          contexts := contexts + {x.value.callID};
        }
      } else if Readable(x) && IsOutput(x.value.kind) {
        required := required + [x.value.callID];
      }
    }
    assert items[..|items|] == items;
    ContextsConcat(before, items);
    return true, contexts, required;
  }

  /** `responsesWebSocketToolContextDelta`. */
  method ToolContextDelta(existing: set<string>, groups: seq<seq<Item>>) returns (contexts: set<string>, complete: bool)
    ensures complete == Extends(existing, Flat(groups))
    ensures complete ==> contexts == Contexts(Flat(groups))
  {
    contexts := {};
    var required: seq<string> := [];
    for g := 0 to |groups|
      invariant Portable(Flat(groups[..g])) && contexts == Contexts(Flat(groups[..g]))
      invariant (set id | id in required) == Required(Flat(groups[..g]))
    {
      assert groups[..g + 1][..g] == groups[..g];
      var ok;
      ok, contexts, required := ScanItems(groups[g], contexts, required, Flat(groups[..g]));
      if !ok {
        BoundSomewhere(groups, g);
        return {}, false;
      }
    }
    assert groups[..|groups|] == groups;
    for i := 0 to |required|
      invariant forall j :: 0 <= j < i ==> required[j] in contexts + existing
    {
      if required[i] !in contexts && required[i] !in existing {
        assert required[i] in Required(Flat(groups));
        return {}, false;
      }
    }
    return contexts, true;
  }

  lemma OneMore(before: seq<Item>, items: seq<Item>, i: nat)
    requires i < |items|
    ensures before + items[..i + 1] == before + items[..i] + [items[i]]
    ensures Contexts(before + items[..i + 1]) == Contexts(before + items[..i]) + Contexts([items[i]])
    ensures Required(before + items[..i + 1]) == Required(before + items[..i]) + Required([items[i]])
    ensures Portable(before + items[..i + 1]) <==> Portable(before + items[..i]) && !Bound(items[i])
  {
    assert before + items[..i + 1] == before + items[..i] + [items[i]];
    ContextsConcat(before + items[..i], [items[i]]);
    assert Portable([items[i]]) <==> !Bound(items[i]);
  }

  lemma {:induction false} BoundSomewhere(groups: seq<seq<Item>>, g: nat)
    requires g < |groups| && !Portable(groups[g])
    ensures !Portable(Flat(groups))
    decreases |groups|
  {
    var last := |groups| - 1;
    ContextsConcat(Flat(groups[..last]), groups[last]);
    if g < last {
      BoundSomewhere(groups[..last], g);
    }
  }

  /** `responsesWebSocketRawPrefix`. */
  method RawPrefix(items: seq<Item>, prefix: seq<Item>) returns (same: bool)
    ensures same == HasPrefix(items, prefix)
  {
    if |prefix| > |items| {
      return false;
    }
    for i := 0 to |prefix|
      invariant forall j :: 0 <= j < i ==> SameItem(items[j], prefix[j])
    {
      var x, y := items[i], prefix[i];
      if x.value != y.value || x.decodes != y.decodes || x.spelling != y.spelling {
        if !x.decodes || !y.decodes || x.value != y.value {
          return false;
        }
      }
    }
    return true;
  }

  method RawBytes(items: seq<Item>) returns (total: int)
    ensures total == Size(items)
  {
    total := 0;
    for i := 0 to |items|
      invariant total == Size(items[..i])
    {
      assert items[..i + 1][..i] == items[..i];
      total := total + items[i].size;
    }
    assert items[..|items|] == items;
  }
}
