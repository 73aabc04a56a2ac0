/** Schedule operation ids as they are printed, and when two of them read the same. */
module ScheduleIds {
  import opened Minutes
  import opened Bundle

  // -------------------------------------------------------------------- numbers

  function Digit(d: nat): char
    requires d < 10
  {
    ['0', '1', '2', '3', '4', '5', '6', '7', '8', '9'][d]
  }

  function ValueOf(c: char): nat {
    match c
    case '1' => 1 case '2' => 2 case '3' => 3 case '4' => 4 case '5' => 5
    case '6' => 6 case '7' => 7 case '8' => 8 case '9' => 9 case _ => 0
  }

  function Digits(n: nat): string {
    if n < 10 then [Digit(n)] else Digits(n / 10) + [Digit(n % 10)]
  }

  function Decimal(n: int): string {
    if n < 0 then "-" + Digits(-n) else Digits(n)
  }

  /** At least two digits. */
  function TwoDigits(n: nat): string {
    if n < 10 then "0" + Digits(n) else Digits(n)
  }

  function Read(s: string): nat {
    if s == "" then 0 else 10 * Read(s[..|s| - 1]) + ValueOf(s[|s| - 1])
  }

  predicate Numeric(c: char) {
    '0' <= c <= '9'
  }

  lemma {:induction false} DigitsRead(n: nat)
    ensures Read(Digits(n)) == n && Digits(n) != "" && forall c :: c in Digits(n) ==> Numeric(c)
  {
    if n < 10 {
      assert [Digit(n)][..0] == "";
    } else {
      DigitsRead(n / 10);
      assert Digits(n)[..|Digits(n)| - 1] == Digits(n / 10);
    }
  }

  /** A printed number reads back as the number it was. */
  lemma TwoDigitsRead(n: nat)
    ensures Read(TwoDigits(n)) == n && forall c :: c in TwoDigits(n) ==> Numeric(c)
  {
    DigitsRead(n);
    if n < 10 {
      assert TwoDigits(n)[..1] == "0" && "0"[..0] == "";
    }
  }

  // ------------------------------------------------------------------------ ids

  /** What the ids of all batches of one operation begin with. */
  function Stem(lineId: string, opCode: string, sequenceNo: int): string {
    lineId + "::" + opCode + "#" + Decimal(sequenceNo)
  }

  function IdText(s: Sid): string {
    Stem(s.lineId, s.opCode, s.sequenceNo)
    + (match s.batch case None => "" case Some(k) => "/B" + TwoDigits(k))
  }

  /** Batch 3 of operation 10 of a line, as it is printed, and without a batch. */
  lemma IdReads()
    ensures IdText(Sid("SO-1", "CUT", 10, Some(3))) == "SO-1::CUT#10/B03"
    ensures IdText(Sid("SO-1", "CUT", 10, None)) == "SO-1::CUT#10"
    ensures TwoDigits(12) == "12" && Decimal(-7) == "-7"
  {
    assert Digits(10) == Digits(1) + [Digit(0)] && Digits(12) == Digits(1) + [Digit(2)];
    assert TwoDigits(3) == "03" && Digits(10) == "10";
    assert Stem("SO-1", "CUT", 10) == "SO-1::CUT#10";
  }

  lemma NoSlashAfter(u: string, d: string, i: nat)
    requires |u| < i < |u + "/B" + d| && forall c :: c in d ==> Numeric(c)
    ensures (u + "/B" + d)[i] != '/'
  {
    if i == |u| + 1 {
      assert (u + "/B" + d)[i] == 'B';
    } else {
      var c := d[i - |u| - 2];
      assert (u + "/B" + d)[i] == c && c in d;
    }
  }

  /** The last slash of a batch id stands before its number. */
  lemma LastSlash(u: string, d: string, v: string, e: string)
    requires u + "/B" + d == v + "/B" + e
    requires (forall c :: c in d ==> Numeric(c)) && forall c :: c in e ==> Numeric(c)
    ensures u == v && d == e
  {
    var s := u + "/B" + d;
    assert s[|u|] == '/' && s[|v|] == '/';
    if |u| < |v| {
      NoSlashAfter(u, d, |v|);
    }
    if |v| < |u| {
      NoSlashAfter(v, e, |u|);
    }
    assert u == s[..|u|] && v == s[..|v|] && d == s[|u| + 2..] && e == s[|v| + 2..];
  }

  /** Two batch ids read the same exactly when their stems do and they count the same batch. */
  lemma SameTextIff(s: Sid, t: Sid)
    requires s.batch.Some? && t.batch.Some?
    ensures IdText(s) == IdText(t)
            <==> Stem(s.lineId, s.opCode, s.sequenceNo) == Stem(t.lineId, t.opCode, t.sequenceNo) && s.batch == t.batch
  {
    hide Stem, TwoDigits;
    TwoDigitsRead(s.batch.value);
    TwoDigitsRead(t.batch.value);
    if IdText(s) == IdText(t) {
      var u, v := Stem(s.lineId, s.opCode, s.sequenceNo), Stem(t.lineId, t.opCode, t.sequenceNo);
      assert u + "/B" + TwoDigits(s.batch.value) == u + ("/B" + TwoDigits(s.batch.value));
      assert v + "/B" + TwoDigits(t.batch.value) == v + ("/B" + TwoDigits(t.batch.value));
      LastSlash(u, TwoDigits(s.batch.value), v, TwoDigits(t.batch.value));
    }
  }
}
