/** The broker order status vocabulary of ez/live/events.py: rank table, normalisation and
    the forward-only transition rule. */
module BrokerStatus {

  datatype Status =
    | Unknown | CancelError | Unreported | Reported | ReportedCancelPending
    | PartiallyFilled | PartiallyFilledCancelPending
    | PartiallyCanceled | Filled | Canceled | Junk | OrderError
    | Other(text: string)  // a word the table does not know

  datatype OrderStatus = New | Submitted | PartFilled | FullyFilled | OrderCanceled | Rejected

  const TERMINAL_RANK := 30

  function Rank(s: Status): nat {
    match s
    case Unknown => 0
    case CancelError => 5
    case Unreported => 10
    case Reported => 12
    case ReportedCancelPending => 14
    case PartiallyFilled => 20
    case PartiallyFilledCancelPending => 22
    case Other(_) => 0
    case _ => 30
  }

  predicate IsTerminal(s: Status) {
    s.PartiallyCanceled? || s.Filled? || s.Canceled? || s.Junk? || s.OrderError?
  }

  predicate IsCancelPending(s: Status) {
    s.ReportedCancelPending? || s.PartiallyFilledCancelPending?
  }

  predicate IsSubmissionOnly(s: Status) {
    s.Unreported? || s.Reported? || s.ReportedCancelPending?
  }

  predicate CanTransition(current: Status, incoming: Status) {
    if Rank(current) >= TERMINAL_RANK then current.PartiallyCanceled? && incoming.Canceled?
    else Rank(incoming) > Rank(current)
  }

  function ToOrderStatus(s: Status): OrderStatus {
    match s
    case Filled => FullyFilled
    case PartiallyFilled => PartFilled
    case PartiallyFilledCancelPending => PartFilled
    case Canceled => OrderCanceled
    case PartiallyCanceled => OrderCanceled
    case Junk => Rejected
    case OrderError => Rejected
    case _ => Submitted
  }

  // ---- the vocabulary as text -------------------------------------------------------

  /** The word stored for a status. */
  function Text(s: Status): string {
    match s
    case Unknown => "unknown"
    case CancelError => "cancel_error"
    case Unreported => "unreported"
    case Reported => "reported"
    case ReportedCancelPending => "reported_cancel_pending"
    case PartiallyFilled => "partially_filled"
    case PartiallyFilledCancelPending => "partially_filled_cancel_pending"
    case PartiallyCanceled => "partially_canceled"
    case Filled => "filled"
    case Canceled => "canceled"
    case Junk => "junk"
    case OrderError => "order_error"
    case Other(text) => text
  }

  function Alias(raw: string): string {
    if raw == "waiting_reporting" || raw == "waiting_report" || raw == "wait_reporting" then "unreported"
    else if raw == "submitted" || raw == "accepted" || raw == "active" || raw == "working" || raw == "queued"
      then "reported"
    else if raw == "partially_cancelled" || raw == "partial_canceled" || raw == "partial_cancelled"
      then "partially_canceled"
    else if raw == "cancelled" then "canceled"
    else if raw == "order_rejected" || raw == "order_failed" || raw == "error" then "order_error"
    else if raw == "cancel_rejected" || raw == "cancel_failed" then "cancel_error"
    else raw
  }

  /** The row of the rank table with this word; `Other` when there is none. */
  function Lookup(raw: string): Status {
    if raw == "unknown" then Unknown
    else if raw == "cancel_error" then CancelError
    else if raw == "unreported" then Unreported
    else if raw == "reported" then Reported
    else if raw == "reported_cancel_pending" then ReportedCancelPending
    else if raw == "partially_filled" then PartiallyFilled
    else if raw == "partially_filled_cancel_pending" then PartiallyFilledCancelPending
    else if raw == "partially_canceled" then PartiallyCanceled
    else if raw == "filled" then Filled
    else if raw == "canceled" then Canceled
    else if raw == "junk" then Junk
    else if raw == "order_error" then OrderError
    else Other(raw)
  }

  predicate Contains(raw: string, part: string) {
    part <= raw || (raw != [] && Contains(raw[1..], part))
  }

  /** What the substring rules make of a word outside the table. */
  function Guess(raw: string, filledShares: int, remainingShares: int): Status {
    if Contains(raw, "cancel") && Contains(raw, "pending") then
      if filledShares > 0 || remainingShares > 0 then PartiallyFilledCancelPending else ReportedCancelPending
    else if Contains(raw, "partial") && Contains(raw, "fill") then PartiallyFilled
    else if Contains(raw, "partial") && Contains(raw, "cancel") then PartiallyCanceled
    else if Contains(raw, "fill") && filledShares > 0 then
      if remainingShares <= 0 then Filled else PartiallyFilled
    else if raw == "reject" || raw == "rejected" || raw == "rejecting" then OrderError
    else if raw == "junk" || raw == "discarded" then Junk
    else if raw == "pending" || raw == "report_pending" || raw == "reported_pending" then Reported
    else if raw == "reported" || raw == "report" || raw == "ack" || raw == "acknowledged" || raw == "submitted"
      then Reported
    else Other(raw)
  }

  /** `raw` is the reported word after Python's strip() and lower(). */
  function Normalize(raw: string, filledShares: int, remainingShares: int): Status {
    if raw == "" then Unknown
    else
      var known := Lookup(Alias(raw));
      if known.Other? then Guess(Alias(raw), filledShares, remainingShares) else known
  }

  /** Reading a stored status back yields that status, whatever word and share counts it came
      from: so rows and projections may hold the status itself. */
  lemma StoredStatusReadsBack(raw: string, filledShares: int, remainingShares: int)
    ensures Normalize(Text(Normalize(raw, filledShares, remainingShares)), 0, 0)
         == Normalize(raw, filledShares, remainingShares)
  {
    var s := Normalize(raw, filledShares, remainingShares);
    if s.Other? {
      UnknownWordReadsBack(raw, filledShares, remainingShares);
    } else {
      TableWordReadsBack(s);
    }
  }

  lemma UnknownWordReadsBack(raw: string, filledShares: int, remainingShares: int)
    requires Normalize(raw, filledShares, remainingShares).Other?
    ensures Normalize(raw, filledShares, remainingShares) == Other(raw) == Normalize(raw, 0, 0)
  {
    AliasLeadsToTheTable(raw);
  }

  lemma AliasLeadsToTheTable(raw: string)
    ensures Alias(raw) != raw ==> !Lookup(Alias(raw)).Other?
  {
    TableWordIsFound(Unreported);
    TableWordIsFound(Reported);
    TableWordIsFound(PartiallyCanceled);
    TableWordIsFound(Canceled);
    TableWordIsFound(OrderError);
    TableWordIsFound(CancelError);
  }

  lemma TableWordReadsBack(s: Status)
    requires !s.Other?
    ensures Normalize(Text(s), 0, 0) == s
  {
    TableWordIsNoAlias(s);
    TableWordIsFound(s);
  }

  lemma TableWordIsFound(s: Status)
    requires !s.Other?
    ensures Lookup(Text(s)) == s && Text(s) != ""
  {
    if IsTerminal(s) { FinalWordIsFound(s); } else { OpenWordIsFound(s); }
  }

  lemma FinalWordIsFound(s: Status)
    requires IsTerminal(s)
    ensures Lookup(Text(s)) == s && Text(s) != ""
  {
  }

  lemma OpenWordIsFound(s: Status)
    requires !s.Other? && !IsTerminal(s)
    ensures Lookup(Text(s)) == s && Text(s) != ""
  {
  }

  lemma TableWordIsNoAlias(s: Status)
    requires !s.Other?
    ensures Alias(Text(s)) == Text(s)
  {
    match s {
      case CancelError => LengthTells(Text(s));
      case Canceled => LengthTells(Text(s));
      case OrderError => LengthTells(Text(s));
      case PartiallyFilled => PartialIsNoAlias(s);
      case PartiallyFilledCancelPending => PartialIsNoAlias(s);
      case PartiallyCanceled => PartialIsNoAlias(s);
      case Unknown => PlainWordIsNoAlias(s);
      case Filled => PlainWordIsNoAlias(s);
      case Junk => PlainWordIsNoAlias(s);
      case _ => OpenWordIsNoAlias(s);
    }
  }

  lemma OpenWordIsNoAlias(s: Status)
    requires IsSubmissionOnly(s)
    ensures Alias(Text(s)) == Text(s)
  {
    match s {
      case Unreported =>
      case Reported =>
      case ReportedCancelPending =>
    }
  }

  lemma PlainWordIsNoAlias(s: Status)
    requires s.Unknown? || s.Filled? || s.Junk?
    ensures Alias(Text(s)) == Text(s)
  {
    match s {
      case Unknown =>
      case Filled =>
      case Junk =>
    }
  }

  /** No alias with one of these first letters has one of these lengths. */
  lemma LengthTells(raw: string)
    requires |raw| in {8, 11, 12} && raw[0] in {'c', 'o'} && (|raw| == 12 ==> raw[0] == 'c')
    ensures Alias(raw) == raw
  {
  }

  lemma PartialIsNoAlias(s: Status)
    requires s.PartiallyFilled? || s.PartiallyFilledCancelPending? || s.PartiallyCanceled?
    ensures Alias(Text(s)) == Text(s)
  {
    assert Text(s)[7] == 'l';
  }
}
