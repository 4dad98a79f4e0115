/** Orders and their deterministic ids (ez/live/events.py). */
module Orders {
  import opened Events

  /** An order intent; its order id is its client order id. */
  datatype Order = Order(clientOrderId: string, symbol: string, side: Side, shares: int)

  function SideText(side: Side): string { if side.Buy? then "buy" else "sell" }

  function ClientOrderId(deployment: string, date: string, symbol: string, side: Side): string {
    deployment + ":" + date + ":" + symbol + ":" + SideText(side)
  }

  function EventId(clientOrderId: string, kind: string): string { clientOrderId + ":" + kind }

  /** The decimal digits of a number. */
  function Decimal(n: nat): (r: string)
    ensures r != "" && ':' !in r
  {
    var digit := ['0' + (n % 10) as char];
    if n < 10 then digit else Decimal(n / 10) + digit
  }

  /** The id of a fill event: numbered when the order was filled in several slices. */
  function FillEventId(clientOrderId: string, kind: string, slice: nat, slices: nat): string {
    if slices == 1 then EventId(clientOrderId, kind) else EventId(clientOrderId, kind) + ":" + Decimal(slice)
  }

  // ---- ids identify ------------------------------------------------------------------

  lemma ColonAt(s: string, a: string, x: string)
    requires ':' !in x && s == a + ":" + x
    ensures |s| == |a| + 1 + |x| && s[|a|] == ':' && s[..|a|] == a && s[|a| + 1..] == x
    ensures forall k | |a| < k < |s| :: s[k] != ':'
  {
    forall k | |a| < k < |s| ensures s[k] != ':' { assert s[k] == x[k - |a| - 1]; }
  }

  /** Two texts joined by a colon split again at the last colon. */
  lemma LastColon(a: string, x: string, b: string, y: string)
    requires ':' !in x && ':' !in y && a + ":" + x == b + ":" + y
    ensures a == b && x == y
  {
    ColonAt(a + ":" + x, a, x);
    ColonAt(a + ":" + x, b, y);
  }

  /** Within a deployment and a date, an id belongs to one symbol and side. */
  lemma ClientOrderIdIdentifies(deployment: string, date: string, s1: string, side1: Side, s2: string, side2: Side)
    requires ClientOrderId(deployment, date, s1, side1) == ClientOrderId(deployment, date, s2, side2)
    ensures s1 == s2 && side1 == side2
  {
    var prefix := deployment + ":" + date + ":";
    LastColon(prefix + s1, SideText(side1), prefix + s2, SideText(side2));
    assert s1 == (prefix + s1)[|prefix|..] && s2 == (prefix + s2)[|prefix|..];
  }

  lemma DecimalLength(n: nat)
    ensures |Decimal(n)| == 1 <==> n < 10
    ensures Decimal(n)[|Decimal(n)| - 1] == '0' + (n % 10) as char
    ensures n >= 10 ==> Decimal(n)[..|Decimal(n)| - 1] == Decimal(n / 10)
  {
  }

  lemma {:induction false} DecimalIdentifies(m: nat, n: nat)
    requires Decimal(m) == Decimal(n)
    ensures m == n
  {
    DecimalLength(m);
    DecimalLength(n);
    if m >= 10 { DecimalIdentifies(m / 10, n / 10); }
  }

  /** An event id tells the order, the kind of event and the slice. */
  lemma EventIdIdentifies(c1: string, kind1: string, slice1: nat, slices1: nat, c2: string, kind2: string, slice2: nat,
                          slices2: nat)
    requires ':' !in kind1 && ':' !in kind2 && kind1 != "" && kind2 != "" && kind1[0] > '9' && kind2[0] > '9'
    requires FillEventId(c1, kind1, slice1, slices1) == FillEventId(c2, kind2, slice2, slices2)
    ensures c1 == c2 && kind1 == kind2 && (slices1 == 1 <==> slices2 == 1) && (slices1 != 1 ==> slice1 == slice2)
  {
    DecimalStartsWithDigit(slice1);
    DecimalStartsWithDigit(slice2);
    if slices1 == 1 && slices2 == 1 {
      LastColon(c1, kind1, c2, kind2);
    } else if slices1 == 1 {
      LastColon(c1, kind1, EventId(c2, kind2), Decimal(slice2));
    } else if slices2 == 1 {
      LastColon(EventId(c1, kind1), Decimal(slice1), c2, kind2);
    } else {
      LastColon(EventId(c1, kind1), Decimal(slice1), EventId(c2, kind2), Decimal(slice2));
      LastColon(c1, kind1, c2, kind2);
      DecimalIdentifies(slice1, slice2);
    }
  }

  lemma {:induction false} DecimalStartsWithDigit(n: nat)
    ensures '0' <= Decimal(n)[0] <= '9'
  {
    if n >= 10 { DecimalStartsWithDigit(n / 10); }
  }
}
