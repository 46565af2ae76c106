/**
 * Ship-move orders and the one line of text that describes an order, both in
 * the notification shown when it is issued and in the next turn's reports.
 */
module Orders {
  import opened Maybe
  import opened Coordinates
  import opened Text

  /**
   * A ship-move order, the only kind of order there is. The destination is None
   * while the order is still being loaded (queued) and set when it is committed.
   */
  datatype Order = Order(source: nat, destination: Option<nat>, ships: nat)

  /** What the text of an order says: how many ships, from which label, to which label. */
  datatype OrderSummary = OrderSummary(ships: nat, from: SectorCoordinates, to: SectorCoordinates)

  /** A fresh order out of sector s: nowhere to go yet and no ship loaded. */
  function NewShipMoveOrder(s: nat): (o: Order)
    ensures o.source == s && o.destination.None? && o.ships == 0
  {
    Order(s, None, 0)
  }

  /**
   * The sector index the text uses for the destination. Only committed orders
   * are ever rendered; for an order without destination the JavaScript arithmetic
   * on null works as on 0.
   */
  function DestinationIndex(o: Order): nat
  {
    match o.destination
    case Some(d) => d
    case None => 0
  }

  /** "(L, N)": the label of a sector as it appears in order text. */
  function LabelText(c: SectorCoordinates): string
  {
    "(" + ([c.letter] + (", " + (NatToString(c.number) + ")")))
  }

  /**
   * "Move {ships} Ships from ({L}, {N}) to ({L}, {N})". The text states exactly
   * the order's ship count and the labels of its two sectors: it reads back to
   * nothing else.
   */
  function OrderText(o: Order): (r: string)
    ensures ParseOrderText(r) == Some(Summary(o))
  {
    var from := SectorIndexToSectorCoordinates(o.source);
    var to := SectorIndexToSectorCoordinates(DestinationIndex(o));
    TemplateRoundTrip(o.ships, from, to);
    "Move " + (NatToString(o.ships) + (" Ships from " + (LabelText(from) + (" to " + LabelText(to)))))
  }

  /** The summary an order's text is made from. */
  function Summary(o: Order): OrderSummary
  {
    OrderSummary(o.ships, SectorIndexToSectorCoordinates(o.source),
                 SectorIndexToSectorCoordinates(DestinationIndex(o)))
  }

  /** Reads "(L, N)" off the head of s. */
  function ParseLabel(s: string): Option<(SectorCoordinates, string)>
  {
    match StripPrefix("(", s)
    case None => None
    case Some(s1) =>
      match ReadChar(s1)
      case None => None
      case Some((letter, s2)) =>
        match StripPrefix(", ", s2)
        case None => None
        case Some(s3) =>
          match ReadNat(s3)
          case None => None
          case Some((number, s4)) =>
            match StripPrefix(")", s4)
            case None => None
            case Some(s5) => Some((SectorCoordinates(letter, number), s5))
  }

  /** Reads a whole order text back into the summary it states; None for any other text. */
  function ParseOrderText(t: string): Option<OrderSummary>
  {
    match StripPrefix("Move ", t)
    case None => None
    case Some(t1) =>
      match ReadNat(t1)
      case None => None
      case Some((ships, t2)) =>
        match StripPrefix(" Ships from ", t2)
        case None => None
        case Some(t3) =>
          match ParseRoute(t3)
          case None => None
          case Some((from, to)) => Some(OrderSummary(ships, from, to))
  }

  /** Reads "(L, N) to (L, N)", which must make up all of s. */
  function ParseRoute(s: string): Option<(SectorCoordinates, SectorCoordinates)>
  {
    match ParseLabel(s)
    case None => None
    case Some((from, s1)) =>
      match StripPrefix(" to ", s1)
      case None => None
      case Some(s2) =>
        match ParseLabel(s2)
        case None => None
        case Some((to, s3)) => if s3 == [] then Some((from, to)) else None
  }

  lemma LabelTextRoundTrip(c: SectorCoordinates, rest: string)
    ensures ParseLabel(LabelText(c) + rest) == Some((c, rest))
  {
    var n := NatToString(c.number);
    assert LabelText(c) + rest == "(" + ([c.letter] + (", " + (n + (")" + rest))));
    StripPrefixOfConcat("(", [c.letter] + (", " + (n + (")" + rest))));
    StripPrefixOfConcat(", ", n + (")" + rest));
    ReadNatOfNatToString(c.number, ")" + rest);
    StripPrefixOfConcat(")", rest);
  }

  lemma RouteRoundTrip(from: SectorCoordinates, to: SectorCoordinates)
    ensures ParseRoute(LabelText(from) + (" to " + LabelText(to))) == Some((from, to))
  {
    var r := " to " + LabelText(to);
    assert ParseLabel(LabelText(from) + r) == Some((from, r)) by { LabelTextRoundTrip(from, r); }
    assert StripPrefix(" to ", r) == Some(LabelText(to)) by { StripPrefixOfConcat(" to ", LabelText(to)); }
    assert ParseLabel(LabelText(to)) == Some((to, [])) by {
      LabelTextRoundTrip(to, []);
      assert LabelText(to) + [] == LabelText(to);
    }
  }

  /** The order template, filled in with a ship count and two labels, reads back to them. */
  lemma TemplateRoundTrip(ships: nat, from: SectorCoordinates, to: SectorCoordinates)
    ensures ParseOrderText("Move " + (NatToString(ships) + (" Ships from "
              + (LabelText(from) + (" to " + LabelText(to))))))
         == Some(OrderSummary(ships, from, to))
  {
    var r3 := LabelText(from) + (" to " + LabelText(to));
    var r2 := " Ships from " + r3;
    var r1 := NatToString(ships) + r2;
    assert StripPrefix("Move ", "Move " + r1) == Some(r1) by { StripPrefixOfConcat("Move ", r1); }
    assert ReadNat(r1) == Some((ships, r2)) by { ReadNatOfNatToString(ships, r2); }
    assert StripPrefix(" Ships from ", r2) == Some(r3) by { StripPrefixOfConcat(" Ships from ", r3); }
    RouteRoundTrip(from, to);
  }

  /** Two committed orders with the same text are the same order. */
  lemma OrderTextInjective(o1: Order, o2: Order)
    requires o1.destination.Some? && o2.destination.Some?
    requires OrderText(o1) == OrderText(o2)
    ensures o1 == o2
  {
    assert ParseOrderText(OrderText(o1)) == Some(Summary(o1));
    assert ParseOrderText(OrderText(o2)) == Some(Summary(o2));
    CoordinatesInjective(o1.source, o2.source);
    CoordinatesInjective(DestinationIndex(o1), DestinationIndex(o2));
  }
}
