/** The cancellation context as the retrier observes it (context.go): a poll
    that says whether the context is done, and the text heuristic that says
    whether an action's error reports a cancelled context. */
module CancelContext {
  import opened ErrorValues

  /** The texts of Go's `context.Canceled` and `context.DeadlineExceeded`. */
  const CanceledText := "context canceled"
  const DeadlineExceededText := "context deadline exceeded"

  /** A cancellation context as one call of `Do` sees it. During that call the
      context is polled once per attempt, the polls numbered 0, 1, 2, ...
      `Background` is never cancelled. `CancelledBefore(n)` has been cancelled
      before poll `n` (by the caller, a deadline, or the action itself during
      invocation `n - 1`) and, as a Go context, stays cancelled. */
  datatype Context = Background | CancelledBefore(poll: nat)

  /** IsContextDone (context.go:15-22): the non-blocking poll of `ctx.Done()`. */
  predicate IsContextDone(ctx: Context, poll: nat) {
    ctx.CancelledBefore? && ctx.poll <= poll
  }

  /** A context is not done before it is cancelled and is done at every poll
      after that. This holds by construction of `Context`, which models a Done
      channel that stays closed once closed; the lemma only unfolds
      `IsContextDone`. */
  lemma IsContextDoneAfterCancel(n: nat, poll: nat)
    ensures IsContextDone(CancelledBefore(n), poll) <==> n <= poll
    ensures !IsContextDone(Background, poll)
  {
  }

  /** ASCII lower-casing of one character. */
  function LowerChar(c: char): char {
    if 'A' <= c <= 'Z' then (c as int - 'A' as int + 'a' as int) as char else c
  }

  /** strings.ToLower, restricted to ASCII letters. */
  function ToLower(s: string): string {
    seq(|s|, i requires 0 <= i < |s| => LowerChar(s[i]))
  }

  /** `sub` occurs in `s` starting at index `i`. */
  predicate OccursAt(s: string, sub: string, i: nat) {
    i + |sub| <= |s| && s[i..i + |sub|] == sub
  }

  /** `sub` occurs somewhere in `s`. */
  ghost predicate Mentions(s: string, sub: string) {
    exists i: nat :: OccursAt(s, sub, i)
  }

  /** strings.Contains, scanning `s` from the left. */
  function Contains(s: string, sub: string): bool
    decreases |s|
  {
    (|sub| <= |s| && s[..|sub|] == sub) || (|s| > 0 && Contains(s[1..], sub))
  }

  /** The scan finds `sub` exactly when it occurs at some index. */
  lemma {:induction false} ContainsIffMentions(s: string, sub: string)
    ensures Contains(s, sub) <==> Mentions(s, sub)
    decreases |s|
  {
    if |sub| <= |s| && s[..|sub|] == sub {
      assert OccursAt(s, sub, 0);
    } else if |s| > 0 {
      ContainsIffMentions(s[1..], sub);
      if Contains(s[1..], sub) {
        var i: nat :| OccursAt(s[1..], sub, i);
        assert s[1..][i..i + |sub|] == s[i + 1..i + 1 + |sub|];
        assert OccursAt(s, sub, i + 1);
      }
      if Mentions(s, sub) {
        var i: nat :| OccursAt(s, sub, i);
        assert i != 0;
        assert s[1..][i - 1..i - 1 + |sub|] == s[i..i + |sub|];
        assert OccursAt(s[1..], sub, i - 1);
      }
    }
  }

  /** IsCanceledContextError (context.go:9-12): the lower-cased error text
      contains the text of `context.Canceled` or of `context.DeadlineExceeded`. */
  function IsCanceledContextError(err: Error): bool {
    var errLower := ToLower(err.text);
    Contains(errLower, CanceledText) || Contains(errLower, DeadlineExceededText)
  }

  /** The classifier holds exactly when one of the two texts occurs somewhere
      in the lower-cased message. */
  lemma IsCanceledContextErrorIff(err: Error)
    ensures IsCanceledContextError(err) <==>
              (Mentions(ToLower(err.text), CanceledText) || Mentions(ToLower(err.text), DeadlineExceededText))
  {
    ContainsIffMentions(ToLower(err.text), CanceledText);
    ContainsIffMentions(ToLower(err.text), DeadlineExceededText);
  }

  /** A phrase that lower-cases to one of the two texts makes any message
      around it a cancellation error: the match is case-insensitive and may
      start anywhere in the message. */
  lemma {:induction false} PhraseAnywhereMatches(prefix: string, phrase: string, suffix: string)
    requires ToLower(phrase) == CanceledText || ToLower(phrase) == DeadlineExceededText
    ensures IsCanceledContextError(Error(prefix + phrase + suffix))
  {
    var s := prefix + phrase + suffix;
    var lower := ToLower(s);
    forall j | 0 <= j < |phrase|
      ensures lower[|prefix|..|prefix| + |phrase|][j] == ToLower(phrase)[j]
    {
      assert s[|prefix| + j] == phrase[j];
    }
    assert lower[|prefix|..|prefix| + |phrase|] == ToLower(phrase);
    assert OccursAt(lower, ToLower(phrase), |prefix|);
    IsCanceledContextErrorIff(Error(s));
  }

  /** Lower-casing is idempotent, so a message and its lower-cased form are
      classified alike. */
  lemma ToLowerIdempotent(s: string)
    ensures ToLower(ToLower(s)) == ToLower(s)
    ensures IsCanceledContextError(Error(ToLower(s))) == IsCanceledContextError(Error(s))
  {
    assert ToLower(ToLower(s)) == ToLower(s);
  }
}

/** The classifier's tests (context_test.go:10-26), proved of the model. */
module CancelContextExamples {
  import opened ErrorValues
  import opened CancelContext

  /** The messages of the classifier's tests (context_test.go:10-26). */
  const JsonBodyMessage := JsonBodyHead + "Context canceled" + JsonBodyTail
  const JsonBodyHead := "{\"source\":\"\",\"category\":408,\"code\":\"context_canceled\",\"message\":\""
  const JsonBodyTail := "\",\"data\":\"\",\"retriable\":true}"
  const WrappedMessage := "Get \"https://www.blah.com/something\": context canceled"
  const NotFoundMessage := "not found"

  /** A text without upper-case ASCII letters is its own lower-cased form. */
  lemma ToLowerOfLowerCase(s: string)
    requires forall i :: 0 <= i < |s| ==> !('A' <= s[i] <= 'Z')
    ensures ToLower(s) == s
  {
  }

  /** The two texts the classifier looks for are already lower-case. */
  lemma TextsAreLowerCase()
    ensures ToLower(CanceledText) == CanceledText
    ensures ToLower(DeadlineExceededText) == DeadlineExceededText
  {
    ToLowerOfLowerCase(CanceledText);
    ToLowerOfLowerCase(DeadlineExceededText);
  }

  /** "Context canceled" lower-cases to the text of `context.Canceled`. */
  lemma CapitalisedCanceled()
    ensures ToLower("Context canceled") == CanceledText
  {
    var capitalised := "Context canceled";
    assert forall i :: 0 <= i < |capitalised| ==> LowerChar(capitalised[i]) == CanceledText[i];
  }

  /** A JSON body carrying "Context canceled" matches, whatever the case of
      its letters. */
  lemma JsonBodyExample()
    ensures IsCanceledContextError(Error(JsonBodyMessage))
  {
    CapitalisedCanceled();
    PhraseAnywhereMatches(JsonBodyHead, "Context canceled", JsonBodyTail);
  }

  /** A wrapped transport error ends in "context canceled" after a prefix. */
  lemma WrappedErrorExample()
    ensures IsCanceledContextError(Error(WrappedMessage))
  {
    TextsAreLowerCase();
    var prefix := "Get \"https://www.blah.com/something\": ";
    PhraseAnywhereMatches(prefix, CanceledText, "");
    assert prefix + CanceledText + "" == WrappedMessage;
  }

  /** The deadline text on its own matches. */
  lemma DeadlineExample()
    ensures IsCanceledContextError(Error(DeadlineExceededText))
  {
    TextsAreLowerCase();
    PhraseAnywhereMatches("", DeadlineExceededText, "");
    assert "" + DeadlineExceededText + "" == DeadlineExceededText;
  }

  /** A message shorter than both texts cannot match. */
  lemma NotFoundExample()
    ensures !IsCanceledContextError(Error(NotFoundMessage))
  {
    IsCanceledContextErrorIff(Error(NotFoundMessage));
  }
}
