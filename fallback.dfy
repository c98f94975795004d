/**
 * The provider fallback policy of the generation routes: the "model not activated" test applied to
 * a premium provider's error message, `/not activated|activate the model|未开通|请.*开通/i`, as
 * explicit substring predicates; and the per-scene steps of a batch, in which that error switches
 * the premium provider off for the rest of the batch and any other error aborts it.
 */
module Fallback {
  import opened Common
  import opened Text

  const NotActivatedWords: string := "not activated"
  const ActivateTheModel: string := "activate the model"
  const NotOpened: string := "未开通"
  const Opened: string := "开通"
  const Please: char := '请'

  /** `开通` starts somewhere in `s` with no line terminator before it (`.*开通` anchored at the start). */
  predicate OpenedLater(s: string)
    decreases |s|
  {
    StartsWith(s, Opened) || (s != [] && !IsLineTerminator(s[0]) && OpenedLater(s[1..]))
  }

  /** `请.*开通` matches somewhere in `s`. */
  predicate PleaseThenOpened(s: string)
    decreases |s|
  {
    s != [] && ((s[0] == Please && OpenedLater(s[1..])) || PleaseThenOpened(s[1..]))
  }

  /** The case-insensitive test; the Chinese alternatives have no case, the English ones fold A-Z. */
  predicate NotActivated(message: string) {
    var m := Lower(message);
    Contains(m, NotActivatedWords) || Contains(m, ActivateTheModel) || Contains(m, NotOpened) || PleaseThenOpened(m)
  }

  /** The test ignores case: a message and its lower-cased form are classified alike. */
  lemma NotActivatedIgnoresCase(message: string)
    ensures NotActivated(message) <==> NotActivated(Lower(message))
  {
    LowerIsIdempotent(message);
  }

  /** `请` and `开通` must be on one line: the same words across a line break do not match. */
  lemma PleaseOnOneLine()
    ensures PleaseThenOpened("请先开通")
    ensures !PleaseThenOpened("请\n开通")
  {
    assert OpenedLater("先开通") by {
      assert StartsWith("开通", Opened);
      assert OpenedLater("开通");
    }
    assert !OpenedLater("\n开通") by {
      var t := "\n开通";
      assert t[..|Opened|][0] != Opened[0];
      assert IsLineTerminator(t[0]);
    }
    assert !PleaseThenOpened("通") by {
      assert !PleaseThenOpened("");
    }
    assert !PleaseThenOpened("开通");
    assert !PleaseThenOpened("\n开通");
  }

  // ---------- the steps of a batch ----------

  /** How one scene of a batch was handled; `T` is what the premium provider gives back. */
  datatype Step<T> =
    | Premium(value: T)
    /** The premium provider reported the model is not activated; the free path was taken. */
    | NotActivatedThenFree
    /** The premium provider was not consulted. */
    | Free
    /** Any other premium error: the batch stops here and the error is rethrown. */
    | Abort(message: string)

  /** How a route reacts to the premium provider's outcome: keep it, fall back, or rethrow. */
  function Classify<T>(result: Result<T, string>): (r: Step<T>)
    ensures !r.Free?
    ensures r.Premium? <==> result.Ok?
    ensures r.Premium? ==> r.value == result.value
    ensures result.Err? ==> (r.NotActivatedThenFree? <==> NotActivated(result.error))
    ensures r.Abort? ==> r.message == result.error
  {
    match result
    case Ok(v) => Premium(v)
    case Err(m) => if NotActivated(m) then NotActivatedThenFree else Abort(m)
  }

  function StepOf<S, T>(consult: S -> Step<T>, s: S, active: bool): Step<T> {
    if active then consult(s) else Free
  }

  /**
   * The steps of a batch over `scenes`: `consult` gives the step of a scene when the premium
   * provider is still in use, `active` says whether it is on entry.
   */
  function Steps<S, T>(consult: S -> Step<T>, scenes: seq<S>, active: bool): (r: seq<Step<T>>)
    ensures |r| <= |scenes|
    ensures |r| == |scenes| || (r != [] && r[|r| - 1].Abort?)
    ensures forall i :: 0 <= i < |r| - 1 ==> !r[i].Abort?
    decreases |scenes|
  {
    if scenes == [] then []
    else
      var st := StepOf(consult, scenes[0], active);
      if st.Abort? then [st]
      else [st] + Steps(consult, scenes[1..], active && !st.NotActivatedThenFree?)
  }

  predicate Aborted<T>(steps: seq<Step<T>>) {
    steps != [] && steps[|steps| - 1].Abort?
  }

  /** How many scenes were handled to the end: all of them, or all before the one that aborted. */
  function HandledCount<S, T>(steps: seq<Step<T>>, scenes: seq<S>): nat {
    if Aborted(steps) then |steps| - 1 else |scenes|
  }

  /**
   * The rows appended to a table that held `rows` while the first `k` scenes of a batch were handled
   * with their steps: `make` builds each from its id number, counted from `serial`, and the table as
   * it then stands.
   */
  function Appended<S, T, R>(rows: seq<R>, make: (nat, seq<R>, S, Step<T>) -> R, serial: nat, batch: seq<S>,
                             steps: seq<Step<T>>, k: nat): (r: seq<R>)
    requires k <= |batch| && k <= |steps|
    ensures |r| == k
  {
    if k == 0 then []
    else
      var prev := Appended(rows, make, serial, batch, steps, k - 1);
      prev + [make(serial + k - 1, rows + prev, batch[k - 1], steps[k - 1])]
  }

  predicate FreeAfterNotActivated<T>(r: seq<Step<T>>) {
    forall i, j :: 0 <= i < j < |r| && r[i].NotActivatedThenFree? ==> r[j].Free?
  }

  /** A scene reaches the provider only if no earlier scene switched it off. */
  predicate ConsultedOnlyBeforeSwitchOff<T>(r: seq<Step<T>>) {
    forall j :: 0 <= j < |r| && !r[j].Free? ==> forall i :: 0 <= i < j ==> !r[i].NotActivatedThenFree?
  }

  predicate AllFree<T>(r: seq<Step<T>>) {
    forall j :: 0 <= j < |r| ==> r[j].Free?
  }

  /**
   * Once the premium model is reported not activated, every later scene of the batch takes the
   * free path without consulting it; with the provider off on entry, no scene consults it.
   */
  lemma {:induction false} NotActivatedIsSticky<S, T>(consult: S -> Step<T>, scenes: seq<S>, active: bool)
    ensures FreeAfterNotActivated(Steps(consult, scenes, active))
    ensures ConsultedOnlyBeforeSwitchOff(Steps(consult, scenes, active))
    ensures !active ==> AllFree(Steps(consult, scenes, active))
    decreases |scenes|
  {
    if scenes != [] {
      var st := StepOf(consult, scenes[0], active);
      var r := Steps(consult, scenes, active);
      if st.Abort? {
        assert r == [st];
      } else {
        var next := active && !st.NotActivatedThenFree?;
        NotActivatedIsSticky(consult, scenes[1..], next);
        var rest := Steps(consult, scenes[1..], next);
        assert r == [st] + rest;
        assert forall j :: 1 <= j < |r| ==> r[j] == rest[j - 1];
        forall i, j | 0 <= i < j < |r| && r[i].NotActivatedThenFree?
          ensures r[j].Free?
        {
          assert r[j] == rest[j - 1];
          if i > 0 {
            assert r[i] == rest[i - 1];
          }
        }
        forall j | 0 <= j < |r| && !r[j].Free?
          ensures forall i :: 0 <= i < j ==> !r[i].NotActivatedThenFree?
        {
          if j > 0 {
            assert !rest[j - 1].Free?;
            assert next;
            forall i | 0 <= i < j
              ensures !r[i].NotActivatedThenFree?
            {
              if i > 0 {
                assert r[i] == rest[i - 1];
              }
            }
          }
        }
      }
    }
  }

  /** Peeling one scene off the front of the rest of the batch. */
  lemma StepsUnfold<S, T>(consult: S -> Step<T>, scenes: seq<S>, i: nat, active: bool)
    requires i < |scenes|
    ensures var st := StepOf(consult, scenes[i], active);
      Steps(consult, scenes[i..], active)
        == if st.Abort? then [st] else [st] + Steps(consult, scenes[i + 1..], active && !st.NotActivatedThenFree?)
  {
    assert scenes[i..][1..] == scenes[i + 1..];
  }

  /**
   * The batch of three where the first scene's premium call says the model is not activated: the
   * second and third scenes never reach the premium provider.
   */
  lemma StickyOverThree<S, T>(consult: S -> Step<T>, a: S, b: S, c: S)
    requires consult(a) == NotActivatedThenFree
    ensures Steps(consult, [a, b, c], true) == [NotActivatedThenFree, Free, Free]
  {
    assert [a, b, c][1..] == [b, c];
    assert [b, c][1..] == [c];
    assert [c][1..] == [];
    assert Steps(consult, [c], false) == [Free];
    assert Steps(consult, [b, c], false) == [Free, Free];
  }
}
