/**
 * The first step of QueryEngine.refine_query:
 *
 *   list(filter(lambda obj: obj["role"] != 'system', messages))
 *
 * Messages are the caller's dictionaries.  The predicate is applied to the
 * messages in order, so a message without a `role` key (or one that is not a
 * dict) raises the exception of the first such message.
 */
module MessageFilter {
  import opened PyJson

  /** A message that the filter drops. */
  predicate IsSystem(m: Json)
  {
    Has(m, "role") && m.fields["role"] == JString("system")
  }

  /** The filtered history, or the exception raised while filtering it. */
  function DropSystem(messages: seq<Json>): (r: Result<seq<Json>>)
    // the filter only removes messages: it never adds, duplicates or invents one
    ensures r.Ok? ==> |r.value| <= |messages| && forall m | m in r.value :: m in messages
  {
    if messages == [] then Ok([])
    else
      var role :- Subscript(messages[0], "role");
      var rest :- DropSystem(messages[1..]);
      if role != JString("system") then Ok([messages[0]] + rest) else Ok(rest)
  }

  /** The filter raises exactly when some message has no `role`. */
  lemma {:induction false} DropSystemOkIff(messages: seq<Json>)
    ensures DropSystem(messages).Ok? <==> forall i | 0 <= i < |messages| :: Has(messages[i], "role")
  {
    if messages != [] {
      DropSystemOkIff(messages[1..]);
      assert forall i | 1 <= i < |messages| :: messages[1..][i - 1] == messages[i];
    }
  }

  /** When it raises, it raises for the first message without a `role`. */
  lemma {:induction false} DropSystemFirstError(messages: seq<Json>) returns (k: nat)
    requires DropSystem(messages).Err?
    ensures k < |messages| && !Has(messages[k], "role")
    ensures DropSystem(messages).error == Subscript(messages[k], "role").error
    ensures forall j | 0 <= j < k :: Has(messages[j], "role")
  {
    if Subscript(messages[0], "role").Err? {
      k := 0;
    } else {
      var k' := DropSystemFirstError(messages[1..]);
      k := k' + 1;
      assert forall j | 1 <= j < k :: messages[1..][j - 1] == messages[j];
    }
  }

  /**
   * `idx` lists, in increasing order, the positions of `messages` that make up
   * `kept`, and these are exactly the positions of the non-system messages.
   */
  ghost predicate KeepsExactlyNonSystem(messages: seq<Json>, kept: seq<Json>, idx: seq<nat>)
  {
    Picks(messages, kept, idx) && Increasing(idx) && SelectsNonSystem(messages, idx)
  }

  /** `kept[i]` is the message at position `idx[i]`. */
  ghost predicate Picks(messages: seq<Json>, kept: seq<Json>, idx: seq<nat>)
  {
    && |idx| == |kept|
    && forall i | 0 <= i < |idx| :: idx[i] < |messages| && messages[idx[i]] == kept[i]
  }

  ghost predicate Increasing(idx: seq<nat>)
  {
    forall i, j | 0 <= i < j < |idx| :: idx[i] < idx[j]
  }

  /** The listed positions are exactly those of the non-system messages. */
  ghost predicate SelectsNonSystem(messages: seq<Json>, idx: seq<nat>)
  {
    forall k | 0 <= k < |messages| :: IsSystem(messages[k]) <==> k !in idx
  }

  /** Positions in `messages[1..]` seen as positions in `messages`. */
  function Shift(idx: seq<nat>): (s: seq<nat>)
    ensures |s| == |idx|
    ensures forall i | 0 <= i < |idx| :: s[i] == idx[i] + 1
  {
    seq(|idx|, i requires 0 <= i < |idx| => idx[i] + 1)
  }

  lemma ShiftMember(idx: seq<nat>, k: nat)
    ensures k in Shift(idx) <==> k > 0 && k - 1 in idx
  {
    if k > 0 && k - 1 in idx {
      var i :| 0 <= i < |idx| && idx[i] == k - 1;
      assert Shift(idx)[i] == k;
    }
  }

  /**
   * The filtered history is the subsequence of the non-system messages, in
   * their original relative order: every non-system message is kept, every
   * system message is dropped, and nothing else is added or reordered.
   */
  lemma {:induction false} DropSystemSelects(messages: seq<Json>) returns (idx: seq<nat>)
    requires DropSystem(messages).Ok?
    ensures KeepsExactlyNonSystem(messages, DropSystem(messages).value, idx)
  {
    if messages == [] {
      idx := [];
    } else {
      DropSystemUnfold(messages);
      var idx' := DropSystemSelects(messages[1..]);
      idx := SelectsCons(messages, DropSystem(messages[1..]).value, idx', DropSystem(messages).value);
    }
  }

  /** One step of the filter: the head is kept unless it is a system message. */
  lemma DropSystemUnfold(messages: seq<Json>)
    requires messages != [] && DropSystem(messages).Ok?
    ensures DropSystem(messages[1..]).Ok?
    ensures DropSystem(messages).value ==
      if IsSystem(messages[0]) then DropSystem(messages[1..]).value
      else [messages[0]] + DropSystem(messages[1..]).value
  {
  }

  /** The positions selected from the tail, preceded by 0 when the head is kept. */
  function Extend(keepHead: bool, idx': seq<nat>): seq<nat>
  {
    if keepHead then [0] + Shift(idx') else Shift(idx')
  }

  /** The selection for the tail, extended by the head's decision. */
  lemma SelectsCons(messages: seq<Json>, rest: seq<Json>, idx': seq<nat>, kept: seq<Json>) returns (idx: seq<nat>)
    requires messages != []
    requires KeepsExactlyNonSystem(messages[1..], rest, idx')
    requires kept == if IsSystem(messages[0]) then rest else [messages[0]] + rest
    ensures KeepsExactlyNonSystem(messages, kept, idx)
  {
    idx := Extend(!IsSystem(messages[0]), idx');
    ExtendPicks(messages, rest, idx', kept);
    ExtendIncreasing(!IsSystem(messages[0]), idx');
    ExtendSelects(messages, idx');
  }

  lemma ExtendPicks(messages: seq<Json>, rest: seq<Json>, idx': seq<nat>, kept: seq<Json>)
    requires messages != []
    requires Picks(messages[1..], rest, idx')
    requires kept == if IsSystem(messages[0]) then rest else [messages[0]] + rest
    ensures Picks(messages, kept, Extend(!IsSystem(messages[0]), idx'))
  {
    var idx := Extend(!IsSystem(messages[0]), idx');
    var skip := if IsSystem(messages[0]) then 0 else 1;
    forall i | 0 <= i < |idx|
      ensures idx[i] < |messages| && messages[idx[i]] == kept[i]
    {
      if i >= skip {
        assert idx[i] == idx'[i - skip] + 1;
        assert messages[idx[i]] == messages[1..][idx'[i - skip]];
      }
    }
  }

  lemma ExtendIncreasing(keepHead: bool, idx': seq<nat>)
    requires Increasing(idx')
    ensures Increasing(Extend(keepHead, idx'))
  {
    var idx := Extend(keepHead, idx');
    var skip := if keepHead then 1 else 0;
    forall i, j | 0 <= i < j < |idx|
      ensures idx[i] < idx[j]
    {
      if i >= skip {
        assert idx'[i - skip] < idx'[j - skip];
      }
    }
  }

  lemma ExtendSelects(messages: seq<Json>, idx': seq<nat>)
    requires messages != []
    requires SelectsNonSystem(messages[1..], idx')
    ensures SelectsNonSystem(messages, Extend(!IsSystem(messages[0]), idx'))
  {
    var idx := Extend(!IsSystem(messages[0]), idx');
    forall k | 0 <= k < |messages|
      ensures IsSystem(messages[k]) <==> k !in idx
    {
      ShiftMember(idx', k);
      if k > 0 {
        assert messages[k] == messages[1..][k - 1];
      }
    }
  }

  /** No system message survives the filter. */
  lemma {:induction false} DropSystemHasNoSystem(messages: seq<Json>)
    requires DropSystem(messages).Ok?
    ensures forall m | m in DropSystem(messages).value :: !IsSystem(m) && Has(m, "role")
  {
    if messages != [] {
      DropSystemHasNoSystem(messages[1..]);
    }
  }

  /** A history with roles and without system messages passes the filter unchanged. */
  lemma {:induction false} DropSystemKeepsClean(messages: seq<Json>)
    requires forall m | m in messages :: !IsSystem(m) && Has(m, "role")
    ensures DropSystem(messages) == Ok(messages)
  {
    if messages != [] {
      assert messages[0] in messages;
      assert forall m | m in messages[1..] :: m in messages;
      DropSystemKeepsClean(messages[1..]);
      assert [messages[0]] + messages[1..] == messages;
    }
  }

  /** Filtering twice is filtering once. */
  lemma DropSystemIdempotent(messages: seq<Json>)
    requires DropSystem(messages).Ok?
    ensures DropSystem(DropSystem(messages).value) == DropSystem(messages)
  {
    DropSystemHasNoSystem(messages);
    DropSystemKeepsClean(DropSystem(messages).value);
  }
}
