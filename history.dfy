/**
 * The text layout of a history entry, "timestamp|event|from|to|details",
 * and a reader for it. The layout can be read back as long as the first
 * four fields hold no '|'; the details field may hold anything.
 */
module HistoryLine {
  import opened Drugs

  const Bar: char := '|'

  predicate NoBar(s: string) {
    forall i :: 0 <= i < |s| ==> s[i] != Bar
  }

  /** Two fields separated by a '|'. */
  function Join(a: string, b: string): string {
    a + [Bar] + b
  }

  /**
   * The line the chaincode stores for an event: the timestamp, a '|', the
   * event word, the two parties and, after the fourth '|', the details.
   */
  function Format(e: Event): (line: string)
    ensures |line| == |e.timestamp| + |e.kind.Name()| + |e.from| + |e.to| + |e.detail| + 4
    ensures line[..|e.timestamp|] == e.timestamp && line[|e.timestamp|] == Bar
    ensures line[|line| - |e.detail| - 1] == Bar && line[|line| - |e.detail|..] == e.detail
  {
    Join(e.timestamp, Join(e.kind.Name(), Join(e.from, Join(e.to, e.detail))))
  }

  /** The line RegisterDrug writes: "timestamp|Created|Cipla|-|Batch: number". */
  lemma CreatedLine(now: string, batchNumber: string)
    ensures Format(Event(now, Created, Manufacturer, "-", "Batch: " + batchNumber))
            == now + "|Created|Cipla|-|Batch: " + batchNumber
  {
  }

  /** The line ShipDrug writes: "timestamp|Shipped|from|to|", with empty details. */
  lemma ShippedLine(now: string, from: string, to: string)
    ensures Format(Event(now, Shipped, from, to, "")) == now + "|Shipped|" + from + "|" + to + "|"
  {
  }

  /** The line RecallDrug writes: "timestamp|Recalled|CDSCO|-|Reason: reason". */
  lemma RecalledLine(now: string, reason: string)
    ensures Format(Event(now, Recalled, Regulator, "-", "Reason: " + reason))
            == now + "|Recalled|CDSCO|-|Reason: " + reason
  {
  }

  /** The position of the first '|' in `s`, if any. */
  function FindBar(s: string): (r: Option<nat>)
    ensures r.None? ==> NoBar(s)
    ensures r.Some? ==> r.value < |s| && s[r.value] == Bar && NoBar(s[..r.value])
  {
    if s == [] then None
    else if s[0] == Bar then Some(0)
    else match FindBar(s[1..])
      case None => None
      case Some(i) => Some(i + 1)
  }

  /** Splits `s` at its first '|' into the text before and the text after. */
  function Cut(s: string): Option<(string, string)> {
    match FindBar(s)
    case None => None
    case Some(i) => Some((s[..i], s[i + 1..]))
  }

  function KindOf(name: string): Option<EventKind> {
    if name == "Created" then Some(Created)
    else if name == "Shipped" then Some(Shipped)
    else if name == "Recalled" then Some(Recalled)
    else None
  }

  /** Reads a history line back into its five fields. */
  function Parse(line: string): Option<Event> {
    match Cut(line)
    case None => None
    case Some((ts, rest1)) =>
      match Cut(rest1)
      case None => None
      case Some((word, rest2)) =>
        match KindOf(word)
        case None => None
        case Some(kind) =>
          match Cut(rest2)
          case None => None
          case Some((from, rest3)) =>
            match Cut(rest3)
            case None => None
            case Some((to, detail)) => Some(Event(ts, kind, from, to, detail))
  }

  lemma CutAtFirstBar(a: string, b: string)
    requires NoBar(a)
    ensures Cut(Join(a, b)) == Some((a, b))
  {
    var s := Join(a, b);
    assert s[|a|] == Bar;
    var i := FindBar(s).value;
    assert i == |a|;
    assert s[..i] == a;
    assert s[i + 1..] == b;
  }

  lemma KindOfName(k: EventKind)
    ensures NoBar(k.Name()) && KindOf(k.Name()) == Some(k)
  {
  }

  /** A line read back gives the event it was written from. */
  lemma {:induction false} ParseFormat(e: Event)
    requires NoBar(e.timestamp) && NoBar(e.from) && NoBar(e.to)
    ensures Parse(Format(e)) == Some(e)
  {
    var name := e.kind.Name();
    KindOfName(e.kind);
    var rest3 := Join(e.to, e.detail);
    var rest2 := Join(e.from, rest3);
    var rest1 := Join(name, rest2);
    CutAtFirstBar(e.timestamp, rest1);
    CutAtFirstBar(name, rest2);
    CutAtFirstBar(e.from, rest3);
    CutAtFirstBar(e.to, e.detail);
  }

  /**
   * ShipDrug does not check its destination: a '|' in it makes two different
   * shipments write the same line. Cipla shipping to "A|B", and a later
   * holder "Cipla|A" shipping to "B", both write "t|Shipped|Cipla|A|B|".
   */
  lemma DestinationBarIsAmbiguous()
    ensures var e1 := Event("t", Shipped, "Cipla", "A|B", "");
            var e2 := Event("t", Shipped, "Cipla|A", "B", "");
            e1 != e2 && Format(e1) == Format(e2)
  {
  }
}
