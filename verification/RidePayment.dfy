/** How an acquirer status becomes the outcome of a ride payment. */
module RidePayment {
  import opened Options
  import opened Text

  datatype Outcome = Succeeded | Rejected | InFlight

  const FAILED_STATUSES: seq<string> := ["REJECTED", "DEADLINE_EXPIRED", "AUTH_FAIL", "CANCELED", "CANCELLED"]

  /** Only a captured payment succeeds: AUTHORIZED is a hold and stays in flight. A captured
      status wins even over `Success = false`. */
  function Classify(status: string, success: Option<bool>): Outcome {
    var normal := Normal(status);
    if normal == "CONFIRMED" || normal == "COMPLETED" then Succeeded
    else if success == Some(false) || normal in FAILED_STATUSES then Rejected
    else InFlight
  }

  // ---------- every spelling of a status ----------

  /** A status as the acquirer may write it: a word in any letter case, with blanks around it. */
  predicate Spells(status: string, pre: string, word: string, post: string) {
    status == pre + word + post && Blank(pre) && Blank(post) && Stripped(word)
  }

  /** CONFIRMED and COMPLETED succeed, whatever `Success` says; the five final refusals and, of any
      other status, `Success = false` are rejections; everything else, the mere hold included, is
      in flight. */
  lemma ClassifiedByWord(status: string, success: Option<bool>, pre: string, word: string, post: string)
    requires Spells(status, pre, word, post)
    ensures Upper(word) == "CONFIRMED" || Upper(word) == "COMPLETED" ==> Classify(status, success) == Succeeded
    ensures Upper(word) in {"REJECTED", "DEADLINE_EXPIRED", "AUTH_FAIL", "CANCELED", "CANCELLED"} ==>
      Classify(status, success) == Rejected
    ensures Upper(word) !in {"CONFIRMED", "COMPLETED"} && success == Some(false) ==>
      Classify(status, success) == Rejected
    ensures
      var known :=
        {"CONFIRMED", "COMPLETED", "REJECTED", "DEADLINE_EXPIRED", "AUTH_FAIL", "CANCELED", "CANCELLED"};
      Upper(word) !in known && success != Some(false) ==> Classify(status, success) == InFlight
    ensures Upper(word) == "AUTHORIZED" && success != Some(false) ==> Classify(status, success) == InFlight
  {
    TrimDropsBlanks(pre, word, post);
    assert Normal(status) == Upper(word);
  }
}
