/** What the words of brokers mean: the spellings that are known and the guess for a word that is not
    (ez/live/events.py). */
module StatusWords {
  import opened BrokerStatus
  import Ledger

  lemma OpenSpellings(w: string)
    requires w in {"waiting_reporting", "waiting_report", "wait_reporting"}
    ensures Alias(w) == Text(Unreported) && w != ""
  {
  }

  lemma ReportedSpellings(w: string)
    requires w in {"submitted", "accepted", "active", "working", "queued"}
    ensures Alias(w) == Text(Reported) && w != ""
  {
  }

  lemma PartialSpellings(w: string)
    requires w in {"partially_cancelled", "partial_canceled", "partial_cancelled"}
    ensures Alias(w) == Text(PartiallyCanceled) && w != ""
  {
  }

  lemma ErrorSpellings(w: string)
    requires w in {"order_rejected", "order_failed", "error"}
    ensures Alias(w) == Text(OrderError) && w != ""
  {
  }

  lemma CancelSpellings(w: string)
    requires w in {"cancelled", "cancel_rejected", "cancel_failed"}
    ensures Alias(w) == Text(if w == "cancelled" then Canceled else CancelError) && w != ""
  {
  }

  /** The spellings of brokers and the word of the table that each stands for. */
  function Spelling(w: string): Status {
    if w in {"waiting_reporting", "waiting_report", "wait_reporting"} then Unreported
    else if w in {"submitted", "accepted", "active", "working", "queued"} then Reported
    else if w in {"partially_cancelled", "partial_canceled", "partial_cancelled"} then PartiallyCanceled
    else if w in {"order_rejected", "order_failed", "error"} then OrderError
    else if w in {"cancel_rejected", "cancel_failed"} then CancelError
    else if w == "cancelled" then Canceled
    else Other(w)
  }

  /** A known spelling means its word of the table whatever the share counts, and so does a word of the table. */
  lemma SpellingsMeanTheirWords(w: string, filledShares: int, remainingShares: int)
    ensures !Spelling(w).Other? ==> Normalize(w, filledShares, remainingShares) == Spelling(w)
    ensures forall s: Status | !s.Other? :: Normalize(Text(s), filledShares, remainingShares) == s
    ensures Normalize("", filledShares, remainingShares) == Unknown
  {
    if !Spelling(w).Other? {
      SpellingIsAlias(w);
      TableWordIsFound(Spelling(w));
    }
    forall s: Status | !s.Other? ensures Normalize(Text(s), filledShares, remainingShares) == s {
      TableWordIsNoAlias(s);
      TableWordIsFound(s);
    }
  }

  lemma SpellingIsAlias(w: string)
    requires !Spelling(w).Other?
    ensures Alias(w) == Text(Spelling(w)) && w != ""
  {
    match Spelling(w)
    case Unreported => OpenSpellings(w);
    case Reported => ReportedSpellings(w);
    case PartiallyCanceled => PartialSpellings(w);
    case OrderError => ErrorSpellings(w);
    case _ => CancelSpellings(w);
  }

  /** The word is neither in the table nor one of the spellings. */
  ghost predicate Strange(raw: string) {
    raw != "" && Spelling(raw).Other? && forall s: Status | !s.Other? :: raw != Text(s)
  }

  lemma StrangeIsUnknown(raw: string)
    requires Strange(raw)
    ensures Alias(raw) == raw && Lookup(raw) == Other(raw)
  {
    assert raw != Text(Unknown) && raw != Text(CancelError) && raw != Text(Unreported) && raw != Text(Reported);
    assert raw != Text(ReportedCancelPending) && raw != Text(PartiallyFilled) && raw != Text(Filled);
    assert raw != Text(PartiallyFilledCancelPending) && raw != Text(PartiallyCanceled) && raw != Text(Canceled);
    assert raw != Text(Junk) && raw != Text(OrderError);
  }

  predicate CancelPends(raw: string) { Contains(raw, "cancel") && Contains(raw, "pending") }

  /** What a strange word is taken for by its parts, and by the share counts where the parts leave it open. */
  lemma StrangeWordMeans(raw: string, filled: int, remaining: int)
    requires Strange(raw)
    ensures var s := Normalize(raw, filled, remaining);
      && (IsCancelPending(s) <==> CancelPends(raw))
      && (s == PartiallyFilledCancelPending <==> CancelPends(raw) && (filled > 0 || remaining > 0))
      && (s == PartiallyFilled <==>
          !CancelPends(raw) && Contains(raw, "fill") && (Contains(raw, "partial") || (filled > 0 && remaining > 0)))
      && (s == Filled <==>
          !CancelPends(raw) && Contains(raw, "fill") && !Contains(raw, "partial") && filled > 0 && remaining <= 0)
      && (s == PartiallyCanceled <==>
          !CancelPends(raw) && Contains(raw, "cancel") && Contains(raw, "partial") && !Contains(raw, "fill"))
  {
    StrangeIsGuessed(raw, filled, remaining);
    PartsTell(raw, filled, remaining);
  }

  lemma PartsTell(raw: string, filled: int, remaining: int)
    ensures var s := Guess(raw, filled, remaining);
      if CancelPends(raw) then
        s == if filled > 0 || remaining > 0 then PartiallyFilledCancelPending else ReportedCancelPending
      else if Contains(raw, "fill") && Contains(raw, "partial") then s == PartiallyFilled
      else if Contains(raw, "cancel") && Contains(raw, "partial") then s == PartiallyCanceled
      else if Contains(raw, "fill") && filled > 0 then s == if remaining <= 0 then Filled else PartiallyFilled
      else s.OrderError? || s.Junk? || s.Reported? || s.Other?
  {
  }

  /** The words that a few strange ones stand for as a whole. */
  function Meaning(raw: string): Status {
    if raw in {"reject", "rejected", "rejecting"} then OrderError
    else if raw == "discarded" then Junk
    else if raw in {"pending", "report_pending", "reported_pending", "report", "ack", "acknowledged"} then Reported
    else Other(raw)
  }

  lemma StrangeIsGuessed(raw: string, filled: int, remaining: int)
    requires Strange(raw)
    ensures Normalize(raw, filled, remaining) == Guess(raw, filled, remaining)
    ensures raw !in {"reported", "submitted", "junk"}
  {
    StrangeIsUnknown(raw);
    assert raw != Text(Junk) && raw != Text(Reported);
  }

  predicate Partless(raw: string) { !Contains(raw, "cancel") && !Contains(raw, "partial") && !Contains(raw, "fill") }

  lemma PartlessGuess(raw: string, filled: int, remaining: int)
    requires Partless(raw) && raw !in {"reported", "submitted", "junk"}
    ensures Guess(raw, filled, remaining) == Meaning(raw)
  {
  }

  /** A strange word without such parts is taken for what it stands for as a whole, or for itself. */
  lemma WholeWordMeans(raw: string, filled: int, remaining: int)
    requires Strange(raw) && Partless(raw)
    ensures Normalize(raw, filled, remaining) == Meaning(raw)
  {
    StrangeIsGuessed(raw, filled, remaining);
    PartlessGuess(raw, filled, remaining);
  }

  /** A word contains another exactly if that stands somewhere in it. */
  lemma {:induction false} ContainsIsSubstring(raw: string, part: string)
    ensures Contains(raw, part) <==> exists i: nat :: i <= |raw| && part <= raw[i..]
  {
    if part <= raw {
      assert part <= raw[0..];
    } else if raw != [] {
      ContainsIsSubstring(raw[1..], part);
      if i: nat :| i <= |raw| - 1 && part <= raw[1..][i..] { assert raw[1..][i..] == raw[i + 1..]; }
      if i: nat :| i <= |raw| && part <= raw[i..] {
        assert i > 0 && raw[i..] == raw[1..][i - 1..];
      }
    }
  }

  /** Ranks tell the phases of an order: finished at 30, a fill known from 20, at the broker from 10; and the order
      status that a report leads to goes the same way, complete exactly for finished orders. */
  lemma RanksTellPhases(s: Status, t: Status)
    ensures (IsTerminal(s) <==> Rank(s) == 30) && Rank(s) <= 30 && (s.Other? ==> Rank(s) == Rank(Unknown))
    ensures IsSubmissionOnly(s) <==> 10 <= Rank(s) < 20
    ensures IsCancelPending(s) <==> Rank(s) in {14, 22}
    ensures Ledger.LocalRank(ToOrderStatus(s)) == 30 <==> IsTerminal(s)
    ensures Rank(s) <= Rank(t) ==> Ledger.LocalRank(ToOrderStatus(s)) <= Ledger.LocalRank(ToOrderStatus(t))
    ensures IsTerminal(s) ==>
      (ToOrderStatus(s) == FullyFilled <==> s == Filled)
      && (ToOrderStatus(s) == OrderCanceled <==> s in {Canceled, PartiallyCanceled})
  {
  }
}
