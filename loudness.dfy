/**
 * audio_normalizer.py `get_target_loudness`: a preset menu plus a custom value,
 * re-prompting until the answer names a target strictly between -70 and 0 LUFS.
 */
module Loudness {
  import opened Wrappers
  import opened Paths

  /** `LOUDNESS_PRESETS`: menu key to target loudness in LUFS. */
  const Presets: map<string, real> := map["1" := -23.0, "2" := -16.0, "3" := -14.0]

  /** The target an empty choice selects (broadcast, EBU R128). */
  const DefaultTarget: real := -23.0

  /** The range a custom target must lie in, both bounds excluded. */
  predicate InRange(lufs: real) {
    -70.0 < lufs < 0.0
  }

  /**
   * One pass through the menu: the typed choice line and, read only when the choice
   * is "4", the custom value as `float()` parsed it (`None` when it raised ValueError).
   */
  datatype Attempt = Attempt(line: string, custom: Option<real>)

  datatype Step = Accept(target: real) | Retry

  /** What a choice, already stripped, selects. Whatever it accepts is a usable target. */
  function Choose(choice: string, custom: Option<real>): (s: Step)
    ensures s.Accept? ==> InRange(s.target)
  {
    if choice == [] then Accept(DefaultTarget)
    else if choice in Presets then Accept(Presets[choice])
    else if choice == "4" then
      if custom.Some? && InRange(custom.value) then Accept(custom.value) else Retry
    else Retry
  }

  /** One iteration of the `while True` loop: `choice = input(...).strip()`, then the dispatch. */
  function MenuStep(a: Attempt): (s: Step)
    ensures s.Accept? ==> InRange(s.target)
  {
    Choose(Strip(a.line, Whitespace), a.custom)
  }

  /** The menu keys and what they select; an empty choice takes the broadcast default. */
  lemma PresetChoices(custom: Option<real>)
    ensures Choose("", custom) == Accept(-23.0)
    ensures Choose("1", custom) == Accept(-23.0)
    ensures Choose("2", custom) == Accept(-16.0)
    ensures Choose("3", custom) == Accept(-14.0)
  {
  }

  /** Choice "4" accepts a custom value exactly when it lies strictly between -70 and 0. */
  lemma CustomChoice(v: real)
    ensures Choose("4", Some(v)) == (if InRange(v) then Accept(v) else Retry)
    ensures Choose("4", None) == Retry
  {
  }

  /** Any other choice re-prompts. */
  lemma UnknownChoiceRetries(choice: string, custom: Option<real>)
    requires choice !in {"", "1", "2", "3", "4"}
    ensures Choose(choice, custom) == Retry
  {
  }

  /**
   * The target the loop returns: the value of the first accepting attempt, or
   * `None` when input ends first (`input()` raises EOFError, which nothing catches).
   */
  function Select(attempts: seq<Attempt>): (t: Option<real>)
    ensures t.Some? ==> InRange(t.value)
  {
    if attempts == [] then None
    else match MenuStep(attempts[0])
      case Accept(v) => Some(v)
      case Retry => Select(attempts[1..])
  }

  lemma {:induction false} SelectFrom(attempts: seq<Attempt>, i: nat, k: nat)
    requires i <= k < |attempts| && MenuStep(attempts[k]).Accept?
    requires forall j :: i <= j < k ==> MenuStep(attempts[j]) == Retry
    ensures Select(attempts[i..]) == Some(MenuStep(attempts[k]).target)
    decreases k - i
  {
    assert attempts[i..][0] == attempts[i];
    if i < k {
      assert attempts[i..][1..] == attempts[i + 1..];
      SelectFrom(attempts, i + 1, k);
    }
  }

  /** When the k-th attempt is the first to accept, `Select` returns its value. */
  lemma {:induction false} SelectFirstAccept(attempts: seq<Attempt>, k: nat)
    requires k < |attempts| && MenuStep(attempts[k]).Accept?
    requires forall j :: 0 <= j < k ==> MenuStep(attempts[j]) == Retry
    ensures Select(attempts) == Some(MenuStep(attempts[k]).target)
  {
    SelectFrom(attempts, 0, k);
    assert attempts[0..] == attempts;
  }

  lemma {:induction false} SelectNoneFrom(attempts: seq<Attempt>, i: nat)
    requires i <= |attempts|
    ensures Select(attempts[i..]).None? <==> forall j :: i <= j < |attempts| ==> MenuStep(attempts[j]) == Retry
    decreases |attempts| - i
  {
    if i < |attempts| {
      assert attempts[i..][0] == attempts[i];
      assert attempts[i..][1..] == attempts[i + 1..];
      SelectNoneFrom(attempts, i + 1);
    }
  }

  /** `Select` gives up exactly when every attempt re-prompts. */
  lemma SelectNone(attempts: seq<Attempt>)
    ensures Select(attempts).None? <==> forall j :: 0 <= j < |attempts| ==> MenuStep(attempts[j]) == Retry
  {
    SelectNoneFrom(attempts, 0);
    assert attempts[0..] == attempts;
  }

  /** The `while True` prompt loop of `get_target_loudness`. */
  method GetTargetLoudness(attempts: seq<Attempt>) returns (t: Option<real>)
    ensures t == Select(attempts)
    ensures t.Some? ==> InRange(t.value)
  {
    var i := 0;
    while i < |attempts|
      invariant 0 <= i <= |attempts|
      invariant Select(attempts[i..]) == Select(attempts)
    {
      assert attempts[i..][1..] == attempts[i + 1..];
      var step := MenuStep(attempts[i]);
      if step.Accept? {
        return Some(step.target);
      }
      i := i + 1;
    }
    return None;
  }
}
