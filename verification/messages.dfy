/** The banner text shown when a submission fails. */
module Messages {

  const UserRejectedMarker := "user rejected transaction"
  const RejectedByUser := "Transaction rejected by user"
  const SubmissionFailedPrefix := "Submission failed: "
  const UnknownError := "Unknown error"

  predicate IsPrefix(prefix: string, s: string)
  {
    |prefix| <= |s| && s[..|prefix|] == prefix
  }

  /** `s.includes(sub)`. */
  predicate Contains(s: string, sub: string)
    decreases |s|
  {
    IsPrefix(sub, s) || (s != [] && Contains(s[1..], sub))
  }

  /** `includes` finds the text wherever it stands. */
  lemma {:induction false} ContainsInside(before: string, sub: string, after: string)
    ensures Contains(before + sub + after, sub)
  {
    if before == [] {
      assert (before + sub + after)[..|sub|] == sub;
    } else {
      ContainsInside(before[1..], sub, after);
      assert (before + sub + after)[1..] == before[1..] + sub + after;
    }
  }

  /**
   * The message for a failed submit: a wallet rejection is reported as such; any
   * other failure quotes the underlying error text, or "Unknown error" when it is empty.
   */
  function SubmitErrorMessage(message: string): (r: string)
    ensures r == RejectedByUser <==> Contains(message, UserRejectedMarker)
    ensures !Contains(message, UserRejectedMarker) ==>
      IsPrefix(SubmissionFailedPrefix, r) &&
      r[|SubmissionFailedPrefix|..] == (if message == "" then UnknownError else message)
  {
    if Contains(message, UserRejectedMarker) then RejectedByUser
    else
      var r := SubmissionFailedPrefix + (if message == "" then UnknownError else message);
      assert r[0] != RejectedByUser[0];
      r
  }

  /** A wallet's rejection text, whatever surrounds the marker, yields the rejection banner. */
  lemma WalletRejectionRecognised(before: string, after: string)
    ensures SubmitErrorMessage(before + UserRejectedMarker + after) == RejectedByUser
  {
    ContainsInside(before, UserRejectedMarker, after);
  }
}
