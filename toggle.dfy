/** The per-action toggle of `RemoteWidget::triggerAction` as pure functions:
    the `globalState` map from action name to flag, the update one trigger
    makes to it, and the code that trigger hands to `sendIRCode`. The update
    happens BEFORE the read that selects the code, so a flag of 0 before the
    trigger selects `.second`. */
module Toggle {
  import opened Wrappers
  import opened FlircDevice

  /** `std::pair<std::vector<uint16_t>, std::vector<uint16_t>>`: `.first` and `.second`. */
  datatype CodePair = CodePair(first: seq<u16>, second: seq<u16>)

  /** A pulse sequence the transmit path can carry: non-empty, and short
      enough that its length survives the narrowing to `uint16_t`. */
  predicate Transmittable(code: seq<u16>) {
    0 < |code| < 0x1_0000
  }

  /** Every entry of a table holds two transmittable sequences. */
  predicate WellFormed(codes: map<string, CodePair>) {
    forall a :: a in codes ==> Transmittable(codes[a].first) && Transmittable(codes[a].second)
  }

  /** `globalState[action]` as a read: a missing key reads as 0. */
  function Flag(state: map<string, int>, action: string): int {
    if action in state then state[action] else 0
  }

  /** Every recorded flag is 0 or 1. */
  predicate Binary(state: map<string, int>) {
    forall a :: a in state ==> state[a] == 0 || state[a] == 1
  }

  /** `globalState[action] = 1 - globalState[action]` for a catalogued action;
      an action missing from `codes` leaves the map as it is. */
  function NextState(codes: map<string, CodePair>, state: map<string, int>, action: string): (r: map<string, int>)
    ensures action !in codes ==> r == state
    ensures action in codes ==> action in r && Flag(r, action) == 1 - Flag(state, action)
  {
    if action in codes then state[action := 1 - Flag(state, action)] else state
  }

  /** A trigger touches only its own flag, adds at most its own key, and
      keeps every flag 0 or 1. */
  lemma NextStateFrame(codes: map<string, CodePair>, state: map<string, int>, action: string)
    ensures forall a :: a != action ==> Flag(NextState(codes, state, action), a) == Flag(state, a)
    ensures NextState(codes, state, action).Keys <= state.Keys + {action}
    ensures Binary(state) ==> Binary(NextState(codes, state, action))
  {
  }

  /** The sequence `triggerAction` passes to `sendIRCode`, read from the flag
      after the flip: `.first` exactly when the flag was 1 before the trigger,
      `.second` otherwise; nothing for an action missing from `codes`. */
  function Selected(codes: map<string, CodePair>, state: map<string, int>, action: string): (r: Option<seq<u16>>)
    ensures r.Some? <==> action in codes
    ensures action in codes && Flag(state, action) == 1 ==> r.value == codes[action].first
    ensures action in codes && Flag(state, action) != 1 ==> r.value == codes[action].second
  {
    if action in codes then
      var flipped := NextState(codes, state, action);
      Some(if Flag(flipped, action) == 0 then codes[action].first else codes[action].second)
    else
      None
  }

  /** The flags after triggering `actions` in order, starting from `state`. */
  function StateAfter(codes: map<string, CodePair>, state: map<string, int>, actions: seq<string>): map<string, int>
    decreases |actions|
  {
    if actions == [] then state
    else NextState(codes, StateAfter(codes, state, actions[..|actions| - 1]), actions[|actions| - 1])
  }

  /** The sequences handed to `sendIRCode`, in order, while triggering
      `actions` from `state`. */
  function SentAfter(codes: map<string, CodePair>, state: map<string, int>, actions: seq<string>): seq<seq<u16>>
    decreases |actions|
  {
    if actions == [] then []
    else
      var earlier := actions[..|actions| - 1];
      SentAfter(codes, state, earlier)
        + Selected(codes, StateAfter(codes, state, earlier), actions[|actions| - 1]).ToSeq()
  }

  /** How many times `action` occurs in `actions`. */
  function Presses(actions: seq<string>, action: string): nat {
    multiset(actions)[action]
  }

  /** Flags stay 0 or 1 whatever is triggered. */
  lemma {:induction false} StateAfterBinary(codes: map<string, CodePair>, state: map<string, int>, actions: seq<string>)
    requires Binary(state)
    ensures Binary(StateAfter(codes, state, actions))
    decreases |actions|
  {
    if actions != [] {
      var earlier := actions[..|actions| - 1];
      StateAfterBinary(codes, state, earlier);
      NextStateFrame(codes, StateAfter(codes, state, earlier), actions[|actions| - 1]);
    }
  }

  /** An action that is never triggered keeps its flag; from the initial
      empty map it therefore reads as 0. */
  lemma {:induction false} UntriggeredUnchanged(codes: map<string, CodePair>, state: map<string, int>, actions: seq<string>, a: string)
    requires a !in actions
    ensures Flag(StateAfter(codes, state, actions), a) == Flag(state, a)
    decreases |actions|
  {
    if actions != [] {
      var earlier := actions[..|actions| - 1];
      assert actions == earlier + [actions[|actions| - 1]];
      UntriggeredUnchanged(codes, state, earlier, a);
      NextStateFrame(codes, StateAfter(codes, state, earlier), actions[|actions| - 1]);
    }
  }

  /** The flag of a catalogued action is the parity of its presses, however
      the presses of other actions are interleaved with them. */
  lemma {:induction false} FlagIsParity(codes: map<string, CodePair>, state: map<string, int>, actions: seq<string>, a: string)
    requires a in codes
    requires Flag(state, a) == 0 || Flag(state, a) == 1
    ensures Flag(StateAfter(codes, state, actions), a) == (Flag(state, a) + Presses(actions, a)) % 2
    decreases |actions|
  {
    if actions != [] {
      var earlier := actions[..|actions| - 1];
      assert actions == earlier + [actions[|actions| - 1]];
      FlagIsParity(codes, state, earlier, a);
      NextStateFrame(codes, StateAfter(codes, state, earlier), actions[|actions| - 1]);
    }
  }

  /** A press of a catalogued action sends `.second` when the action has been
      pressed an even number of times before (from a fresh flag), `.first`
      when odd: the first press sends `.second`. */
  lemma PressSendsByParity(codes: map<string, CodePair>, state: map<string, int>, earlier: seq<string>, a: string)
    requires a in codes && Flag(state, a) == 0
    ensures SentAfter(codes, state, earlier + [a])
         == SentAfter(codes, state, earlier)
            + [if Presses(earlier, a) % 2 == 0 then codes[a].second else codes[a].first]
  {
    var actions := earlier + [a];
    assert actions[..|actions| - 1] == earlier;
    FlagIsParity(codes, state, earlier, a);
  }

  /** The strict alternation `.second`, `.first`, `.second`, ... of length `n`. */
  function Alternating(pair: CodePair, n: nat): (r: seq<seq<u16>>)
    ensures |r| == n
  {
    if n == 0 then [] else Alternating(pair, n - 1) + [if (n - 1) % 2 == 0 then pair.second else pair.first]
  }

  /** The `i`-th element of the alternation is `.second` for even `i` and
      `.first` for odd `i`. */
  lemma {:induction false} AlternatingAt(pair: CodePair, n: nat, i: nat)
    requires i < n
    ensures Alternating(pair, n)[i] == if i % 2 == 0 then pair.second else pair.first
  {
    if i < n - 1 {
      AlternatingAt(pair, n - 1, i);
    }
  }

  /** One more press of `a` extends the alternation by one element. */
  lemma AlternationStep(codes: map<string, CodePair>, state: map<string, int>, a: string, earlier: seq<string>, k: nat)
    requires a in codes && Flag(state, a) == 0
    requires Presses(earlier, a) == k
    requires SentAfter(codes, state, earlier) == Alternating(codes[a], k)
    ensures SentAfter(codes, state, earlier + [a]) == Alternating(codes[a], k + 1)
  {
    PressSendsByParity(codes, state, earlier, a);
  }

  /** Pressing one catalogued action over and over from a fresh flag sends
      `.second`, `.first`, `.second`, ... -- strict alternation with period 2. */
  lemma {:induction false} Alternation(codes: map<string, CodePair>, state: map<string, int>, a: string, actions: seq<string>)
    requires a in codes && Flag(state, a) == 0
    requires forall i :: 0 <= i < |actions| ==> actions[i] == a
    ensures SentAfter(codes, state, actions) == Alternating(codes[a], |actions|)
    decreases |actions|
  {
    if actions != [] {
      var earlier := actions[..|actions| - 1];
      assert actions == earlier + [a];
      Alternation(codes, state, a, earlier);
      PressesOfSame(earlier, a);
      AlternationStep(codes, state, a, earlier, |earlier|);
    }
  }

  /** The first three presses of a catalogued action from the start:
      `.second`, `.first`, `.second`. */
  lemma ThreePresses(codes: map<string, CodePair>, a: string)
    requires a in codes
    ensures SentAfter(codes, map[], [a, a, a]) == [codes[a].second, codes[a].first, codes[a].second]
  {
    Alternation(codes, map[], a, [a, a, a]);
    AlternatingAt(codes[a], 3, 0);
    AlternatingAt(codes[a], 3, 1);
    AlternatingAt(codes[a], 3, 2);
  }

  /** A sequence made only of `a` presses `a` once per element. */
  lemma {:induction false} PressesOfSame(actions: seq<string>, a: string)
    requires forall i :: 0 <= i < |actions| ==> actions[i] == a
    ensures Presses(actions, a) == |actions|
    decreases |actions|
  {
    if actions != [] {
      var earlier := actions[..|actions| - 1];
      assert actions == earlier + [a];
      PressesOfSame(earlier, a);
    }
  }

  /** Triggering only names missing from `codes` changes no flag and sends
      nothing. */
  lemma {:induction false} UnknownActionsAreIgnored(codes: map<string, CodePair>, state: map<string, int>, actions: seq<string>)
    requires forall i :: 0 <= i < |actions| ==> actions[i] !in codes
    ensures StateAfter(codes, state, actions) == state
    ensures SentAfter(codes, state, actions) == []
    decreases |actions|
  {
    if actions != [] {
      UnknownActionsAreIgnored(codes, state, actions[..|actions| - 1]);
    }
  }

  /** Triggering one more action after `earlier` applies `NextState` once
      to the flags `earlier` left behind. */
  lemma StateAfterSnoc(codes: map<string, CodePair>, state: map<string, int>, earlier: seq<string>, a: string)
    ensures StateAfter(codes, state, earlier + [a]) == NextState(codes, StateAfter(codes, state, earlier), a)
  {
    var actions := earlier + [a];
    assert actions[..|actions| - 1] == earlier;
  }

  /** Triggering one more action after `earlier` appends what that action
      selects from the flags `earlier` left behind. */
  lemma SentAfterSnoc(codes: map<string, CodePair>, state: map<string, int>, earlier: seq<string>, a: string)
    ensures SentAfter(codes, state, earlier + [a])
         == SentAfter(codes, state, earlier) + Selected(codes, StateAfter(codes, state, earlier), a).ToSeq()
  {
    var actions := earlier + [a];
    assert actions[..|actions| - 1] == earlier;
  }

  /** Triggering `xs` then `ys` from `state` ends in the same flags as
      triggering `xs + ys`. */
  lemma {:induction false} StateAfterConcat(codes: map<string, CodePair>, state: map<string, int>, xs: seq<string>, ys: seq<string>)
    ensures StateAfter(codes, state, xs + ys) == StateAfter(codes, StateAfter(codes, state, xs), ys)
    decreases |ys|
  {
    if ys == [] {
      assert xs + ys == xs;
    } else {
      var ys', last := ys[..|ys| - 1], ys[|ys| - 1];
      assert ys == ys' + [last];
      assert xs + ys == (xs + ys') + [last];
      StateAfterConcat(codes, state, xs, ys');
      StateAfterSnoc(codes, state, xs + ys', last);
      StateAfterSnoc(codes, StateAfter(codes, state, xs), ys', last);
    }
  }

  /** Triggering `xs` then `ys` sends what `xs` sends followed by what `ys`
      sends from the flags `xs` left behind. */
  lemma {:induction false} SentAfterConcat(codes: map<string, CodePair>, state: map<string, int>, xs: seq<string>, ys: seq<string>)
    ensures SentAfter(codes, state, xs + ys)
         == SentAfter(codes, state, xs) + SentAfter(codes, StateAfter(codes, state, xs), ys)
    decreases |ys|
  {
    if ys == [] {
      assert xs + ys == xs;
    } else {
      var ys', last := ys[..|ys| - 1], ys[|ys| - 1];
      var mid := StateAfter(codes, state, xs);
      assert ys == ys' + [last];
      assert xs + ys == (xs + ys') + [last];
      var tail := Selected(codes, StateAfter(codes, mid, ys'), last).ToSeq();
      calc {
        SentAfter(codes, state, xs + ys);
      ==  { SentAfterSnoc(codes, state, xs + ys', last); StateAfterConcat(codes, state, xs, ys'); }
        SentAfter(codes, state, xs + ys') + tail;
      ==  { SentAfterConcat(codes, state, xs, ys'); }
        (SentAfter(codes, state, xs) + SentAfter(codes, mid, ys')) + tail;
      ==
        SentAfter(codes, state, xs) + (SentAfter(codes, mid, ys') + tail);
      ==  { SentAfterSnoc(codes, mid, ys', last); }
        SentAfter(codes, state, xs) + SentAfter(codes, mid, ys);
      }
    }
  }

  /** Everything sent comes from a well-formed table, so it is non-empty and
      its length fits `uint16_t`. */
  lemma {:induction false} SentIsTransmittable(codes: map<string, CodePair>, state: map<string, int>, actions: seq<string>)
    requires WellFormed(codes)
    ensures forall i :: 0 <= i < |SentAfter(codes, state, actions)| ==> Transmittable(SentAfter(codes, state, actions)[i])
    decreases |actions|
  {
    if actions != [] {
      SentIsTransmittable(codes, state, actions[..|actions| - 1]);
    }
  }
}
