/**
 * The rating dialog of components/feedback-modal.tsx: the star rating, the
 * hover preview, the optional suggestion, the payload handed to `onSubmit`
 * and the disabled submit button.
 */
module FeedbackDialog {
  import opened Wrappers
  import opened Text

  const StarCount: nat := 5

  /** What the dialog hands to `onSubmit`; an empty suggestion is left undefined. */
  datatype Feedback = Feedback(translationId: string, rating: nat, suggestedText: Option<string>)

  /** `suggestedText.trim() || undefined`. */
  function Suggestion(text: string): (s: Option<string>)
    ensures s.None? <==> forall i :: 0 <= i < |text| ==> IsJsSpace(text[i])
    ensures s.Some? ==> s.value == Trim(text) && s.value != ""
  {
    TrimEmptyIffBlank(text);
    var t := Trim(text);
    if t == "" then None else Some(t)
  }

  /** A suggestion that is sent has no white space at either end, and sending it again changes nothing. */
  lemma SuggestionIsTrimmed(text: string)
    requires Suggestion(text).Some?
    ensures var s := Suggestion(text).value;
      !IsJsSpace(s[0]) && !IsJsSpace(s[|s| - 1]) && Suggestion(s) == Suggestion(text)
  {
    var t := Trim(text);
    TrimIdempotent(text);
    TrimSpec(text);
  }

  /** `handleSubmit`: nothing while no star is chosen, otherwise the feedback. */
  function SubmitPayload(translationId: string, rating: nat, suggestedText: string): (r: Option<Feedback>)
    ensures r.None? <==> rating == 0
    ensures r.Some? ==> r.value.translationId == translationId && r.value.rating == rating
    ensures r.Some? ==> r.value.suggestedText == Suggestion(suggestedText)
  {
    if rating == 0 then None else Some(Feedback(translationId, rating, Suggestion(suggestedText)))
  }

  /** The filled stars are always a prefix: the stars up to the shown value and no others. */
  lemma HighlightIsPrefix(modal: FeedbackModal, a: nat, b: nat)
    requires a <= b && modal.StarFilled(b)
    ensures modal.StarFilled(a)
  {
  }

  /** The dialog's state for one translation. */
  class FeedbackModal {
    const translationId: string
    var rating: nat
    var hoveredRating: nat
    var suggestedText: string

    /** Stars are numbered 1 to 5, so both values stay within 0..5. */
    predicate Valid()
      reads this
    {
      rating <= StarCount && hoveredRating <= StarCount
    }

    constructor (translationId: string)
      ensures this.translationId == translationId
      ensures rating == 0 && hoveredRating == 0 && suggestedText == ""
      ensures Valid()
    {
      this.translationId := translationId;
      rating, hoveredRating, suggestedText := 0, 0, "";
    }

    /** Clicking star `star` (one of the five buttons) sets the rating. */
    method ClickStar(star: nat)
      requires Valid() && 1 <= star <= StarCount
      modifies this`rating
      ensures rating == star && Valid()
    {
      rating := star;
    }

    /** The pointer entering star `star` previews it. */
    method HoverStar(star: nat)
      requires Valid() && 1 <= star <= StarCount
      modifies this`hoveredRating
      ensures hoveredRating == star && Valid()
      ensures forall k: nat :: StarFilled(k) <==> k <= star
    {
      hoveredRating := star;
    }

    /** The pointer leaving a star clears the preview. */
    method LeaveStar()
      requires Valid()
      modifies this`hoveredRating
      ensures hoveredRating == 0 && Valid()
      ensures forall k: nat :: StarFilled(k) <==> k <= rating
    {
      hoveredRating := 0;
    }

    /** Typing in the suggestion box. */
    method EditSuggestion(text: string)
      requires Valid()
      modifies this`suggestedText
      ensures suggestedText == text && Valid()
    {
      suggestedText := text;
    }

    /**
     * Whether star `star` is drawn filled: `star <= (hoveredRating || rating)`,
     * so a hovered star count, when non-zero, decides, and otherwise the
     * rating does; in a valid state no star beyond the fifth is ever filled.
     */
    predicate StarFilled(star: nat)
      reads this
      ensures hoveredRating != 0 ==> (StarFilled(star) <==> star <= hoveredRating)
      ensures hoveredRating == 0 ==> (StarFilled(star) <==> star <= rating)
      ensures Valid() && StarFilled(star) ==> star <= StarCount
    {
      star <= (if hoveredRating != 0 then hoveredRating else rating)
    }

    /**
     * The submit button is disabled while no star is chosen: when it is
     * enabled the first star is drawn filled, and when it is disabled and
     * nothing is hovered no star is.
     */
    predicate SubmitDisabled()
      reads this
      ensures !SubmitDisabled() ==> StarFilled(1)
      ensures SubmitDisabled() && hoveredRating == 0 ==> !StarFilled(1)
    {
      rating == 0
    }

    /**
     * `handleSubmit`: sends nothing exactly when the button is disabled;
     * otherwise the rating, this translation's id and the trimmed suggestion,
     * left out when blank.
     */
    method HandleSubmit() returns (sent: Option<Feedback>)
      requires Valid()
      ensures sent.None? <==> SubmitDisabled()
      ensures sent.Some? ==> sent.value == Feedback(translationId, rating, Suggestion(suggestedText))
      ensures sent.Some? ==> 1 <= sent.value.rating <= StarCount
      ensures sent == SubmitPayload(translationId, rating, suggestedText)
    {
      if rating == 0 {
        return None;
      }
      sent := Some(Feedback(translationId, rating, Suggestion(suggestedText)));
    }
  }

  /** Clicking a star enables the button and the submission carries that star. */
  method RateAndSubmit(modal: FeedbackModal, star: nat) returns (sent: Option<Feedback>)
    requires modal.Valid() && 1 <= star <= StarCount
    modifies modal
    ensures sent.Some? && sent.value.rating == star && sent.value.translationId == modal.translationId
  {
    modal.ClickStar(star);
    sent := modal.HandleSubmit();
  }
}
