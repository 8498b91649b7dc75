/**
 * The promo-code dialog (`PromoCodeModal`): an input that drops white space
 * as it is typed, and an Apply action that sends the code to the redeem
 * endpoint. `handleApply` awaits the endpoint, so it is split into the part
 * before the await (`ApplyStart`) and the part after (`ApplyFinish`), whose
 * outcome is a parameter.
 */
module PromoCode {
  import opened Wrappers
  import opened JsString

  const DefaultApplyError := "Failed to apply code"

  /** How `referralsClient.redeemPromoCode` settled. */
  datatype RedeemOutcome = Redeemed | Rejected(message: Option<string>)

  /** What an open dialog shows: the input's value and state, the error line and the Apply button. */
  datatype Panel = Panel(value: string, inputDisabled: bool, errorLine: Option<string>, cancelDisabled: bool, applyDisabled: bool, applyLabel: string)

  /** The Apply button is enabled when nothing is in flight and the trimmed code is non-empty. */
  predicate ApplyEnabled(loading: bool, code: string) {
    !loading && Trim(code) != ""
  }

  /** The code handed to `onApplied`. */
  function AppliedCode(code: string): (r: string)
    ensures |r| <= |code|
  {
    ToUpperAscii(Trim(code))
  }

  /** For a typed code, which never holds white space, Apply is enabled exactly when the code is non-empty. */
  lemma ApplyEnabledIffNonEmpty(loading: bool, code: string)
    requires NoWhitespace(code)
    ensures ApplyEnabled(loading, code) <==> !loading && code != ""
  {
    TrimNoWhitespace(code);
  }

  /** For a typed code, `onApplied` receives exactly that code in upper case. */
  lemma AppliedCodeOfTyped(code: string)
    requires NoWhitespace(code)
    ensures AppliedCode(code) == ToUpperAscii(code)
    ensures |AppliedCode(code)| == |code|
    ensures forall i :: 0 <= i < |code| ==> !('a' <= AppliedCode(code)[i] <= 'z')
  {
    TrimNoWhitespace(code);
  }

  class PromoCodeModal {
    /** The `open` prop. */
    var open: bool
    var code: string
    var loading: bool
    var error: Option<string>
    /** The code the pending `redeemPromoCode` call was made with, captured by `handleApply`. */
    var inFlight: Option<string>

    /**
     * The typed code never holds white space, `loading` is set exactly while a
     * request is in flight, the request's code is non-empty and without white
     * space, and a shown error is never the empty string.
     */
    ghost predicate Valid()
      reads this
    {
      && NoWhitespace(code)
      && (loading <==> inFlight.Some?)
      && (inFlight.Some? ==> NoWhitespace(inFlight.value) && inFlight.value != "")
      && (error.Some? ==> error.value != "")
    }

    constructor (isOpen: bool)
      ensures Valid()
      ensures open == isOpen && code == "" && !loading && error == None && inFlight == None
    {
      open, code, loading, error, inFlight := isOpen, "", false, None, None;
    }

    /**
     * A new value of the `open` prop. The effect on `[open]` runs only when it
     * changes, and when it turns true it clears the code and the error.
     */
    method SetOpen(isOpen: bool)
      requires Valid()
      modifies this`open, this`code, this`error
      ensures Valid() && open == isOpen
      ensures isOpen && !old(open) ==> code == "" && error == None
      ensures !(isOpen && !old(open)) ==> code == old(code) && error == old(error)
    {
      if isOpen && !open {
        code := "";
        error := None;
      }
      open := isOpen;
    }

    /** The input's `onChange`: the new value with every white-space character removed. */
    method OnChange(input: string)
      requires Valid()
      modifies this`code
      ensures Valid() && code == StripWhitespace(input)
    {
      code := StripWhitespace(input);
    }

    /**
     * `handleApply` up to the await. An empty trimmed code changes nothing and
     * sends nothing; otherwise it sets `loading`, clears the error and sends the
     * code. Its only caller is the Apply button, which is disabled while loading.
     */
    method ApplyStart() returns (sent: Option<string>)
      requires Valid() && !loading
      modifies this`loading, this`error, this`inFlight
      ensures Valid()
      ensures Trim(code) == "" ==> sent == None && !loading && error == old(error) && inFlight == None
      ensures Trim(code) != "" ==> sent == Some(code) && loading && error == None && inFlight == sent
    {
      if Trim(code) == "" {
        return None;
      }
      loading := true;
      error := None;
      sent := Some(code);
      inFlight := sent;
    }

    /**
     * `handleApply` after the await. On success `onApplied` receives the sent
     * code trimmed and upper-cased and `onClose` is called; on failure the error
     * is recorded and the dialog stays open. Either way loading ends.
     */
    method ApplyFinish(outcome: RedeemOutcome) returns (applied: Option<string>, closeRequested: bool)
      requires Valid() && inFlight.Some?
      modifies this`loading, this`error, this`inFlight
      ensures Valid() && !loading && inFlight == None
      ensures outcome.Redeemed? ==>
        applied == Some(AppliedCode(old(inFlight).value)) && closeRequested && error == old(error)
      ensures outcome.Rejected? ==>
        applied == None && !closeRequested && error == Some(MessageOr(outcome.message, DefaultApplyError))
    {
      var sentCode := inFlight.value;
      match outcome {
        case Redeemed =>
          applied, closeRequested := Some(AppliedCode(sentCode)), true;
        case Rejected(message) =>
          applied, closeRequested := None, false;
          error := Some(MessageOr(message, DefaultApplyError));
      }
      loading := false;
      inFlight := None;
    }

    /** What the dialog renders: nothing while closed. */
    function Render(): (p: Option<Panel>)
      reads this
      ensures p.None? <==> !open
      ensures p.Some? ==> p.value.value == code && p.value.inputDisabled == loading && p.value.cancelDisabled == loading
      ensures p.Some? ==> p.value.applyDisabled == !ApplyEnabled(loading, code)
      ensures p.Some? ==> (p.value.errorLine.Some? <==> error.Some? && error.value != "")
      ensures p.Some? && p.value.errorLine.Some? ==> p.value.errorLine == error
      ensures p.Some? ==> (p.value.applyLabel == "Applying…" <==> loading)
      ensures p.Some? && !loading ==> p.value.applyLabel == "Apply"
    {
      if !open then None
      else
        Some(Panel(code, loading, if error.Some? && error.value != "" then error else None,
                   loading, !ApplyEnabled(loading, code), if loading then "Applying…" else "Apply"))
    }
  }

  /**
   * Typing a code with white space around and inside it, then applying it
   * with an endpoint that accepts it: the white space is gone, `onApplied`
   * gets the code upper-cased, the dialog asks to close and loading has ended.
   */
  method ApplyScenario(left: string, right: string) returns (applied: Option<string>, closeRequested: bool, stillLoading: bool)
    requires left != "" && NoWhitespace(left) && NoWhitespace(right)
    ensures applied == Some(ToUpperAscii(left + right)) && closeRequested && !stillLoading
  {
    var gap := " ";
    var typed := gap + left + gap + right;
    assert StripWhitespace(typed) == left + right by {
      StripWhitespaceEmptyIff(gap);
      StripWhitespaceKeeps(left);
      StripWhitespaceKeeps(right);
      StripWhitespaceConcat(gap + left + gap, right);
      StripWhitespaceConcat(gap + left, gap);
      StripWhitespaceConcat(gap, left);
    }
    var m := new PromoCodeModal(true);
    m.OnChange(typed);
    var sent := m.ApplyStart();
    applied, closeRequested := m.ApplyFinish(Redeemed);
    AppliedCodeOfTyped(left + right);
    stillLoading := m.loading;
  }
}
