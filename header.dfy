/** The page header (components/Header.tsx): the workshop name split over
    two lines, and the bell that lists the cheques to clear today. */
module Header {
  import opened Types
  import Text
  import Shell

  /** `s.split(c).pop()`: the piece after the last separator, the whole
      string when there is none. The rest of the string is the join of the
      pieces before it. */
  function LastPiece(s: string, c: char): (r: string)
    ensures c !in r
    ensures c !in s ==> r == s
    ensures c in s ==>
      |Text.Split(s, c)| > 1 && s == Text.Join(Text.Split(s, c)[..|Text.Split(s, c)| - 1], c) + [c] + r
  {
    var parts := Text.Split(s, c);
    var k := |parts| - 1;
    Text.SplitPiecesFree(s, c);
    Text.SplitSingle(s, c);
    Text.JoinSplit(s, c);
    assert parts[k] in parts;
    if k > 0 then
      assert parts == parts[..k] + [parts[k]];
      Text.JoinSnoc(parts[..k], parts[k], c);
      parts[k]
    else
      parts[k]
  }

  /** The two lines of the workshop name: with a single word, the word and
      nothing; otherwise everything up to the last space, and the last word. */
  function SplitName(name: string): (r: (string, string))
    ensures ' ' !in name ==> r == (name, "")
    ensures ' ' in name ==> r.0 + " " + r.1 == name && ' ' !in r.1
  {
    var parts := Text.Split(name, ' ');
    Text.SplitSingle(name, ' ');
    if |parts| > 1 then
      var last := LastPiece(name, ' ');
      assert [' '] == " ";
      (Text.Join(parts[..|parts| - 1], ' '), last)
    else
      (Text.Join(parts, ' '), "")
  }

  /** A two-word name is shown as its two words. */
  lemma TwoWordName(a: string, b: string)
    requires ' ' !in a && ' ' !in b
    ensures SplitName(a + " " + b) == (a, b)
  {
    assert a + " " + b == a + [' '] + b;
    Text.SplitAfterWord(a, ' ', b);
    Text.SplitSingle(b, ' ');
    var parts := Text.Split(a + " " + b, ' ');
    assert parts == [a, b] && parts[..1] == [a];
  }

  /** `hasAlerts`: there is at least one cheque to clear. */
  predicate HasAlerts(pending: seq<Transaction>)
  {
    |pending| > 0
  }

  /** The bell shows a red badge with the number of pending cheques exactly
      when some cheque in the ledger is still pending and due today. */
  lemma AlertsIffChequeDueToday(ts: seq<Transaction>, today: string)
    ensures HasAlerts(Shell.PendingChequesToday(ts, today)) <==>
      exists t :: t in ts && t.paymentMethod == "Cheque" && t.status == Some(Pending) && t.isoDate == today
  {
    var p := Shell.PendingChequesToday(ts, today);
    if |p| > 0 {
      assert p[0] in p;
    }
  }

  /** The label of a cheque in the notification list: the part of its
      title after the last ':'. */
  function ChequeLabel(t: Transaction): (r: string)
    ensures ':' !in r
    ensures ':' !in t.title ==> r == t.title
  {
    LastPiece(t.title, ':')
  }

  /** For a cheque emitted by the payment screen, whose title is
      'Serviço: <vehicle> (<customer>)', the label is the vehicle and the
      customer, as long as neither contains a ':'. */
  lemma PaymentChequeLabel(t: Transaction, vehicle: string, customerName: string)
    requires t.title == "Serviço: " + vehicle + " (" + customerName + ")"
    requires ':' !in vehicle && ':' !in customerName
    ensures ChequeLabel(t) == " " + vehicle + " (" + customerName + ")"
  {
    var rest := " " + vehicle + " (" + customerName + ")";
    assert t.title == "Serviço" + [':'] + rest;
    Text.SplitAfterWord("Serviço", ':', rest);
    Text.SplitSingle(rest, ':');
    assert Text.Split(t.title, ':') == ["Serviço", rest];
  }
}
