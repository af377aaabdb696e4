/** The PGN comment a game session attaches to an engine's move
    (chessgame.cpp, onMoveMade): the score in pawns to two decimals, the
    search depth and the time rounded to whole seconds.  The source formats
    `score / 100.0` as a double; here the same text is produced from the
    integer centipawns, and a parser shows that nothing is lost. */
module EvalComment {
  import opened Chess
  import opened Text

  /** Exactly two decimal digits, zero-padded. */
  function TwoDigits(n: nat): string
    requires n < 100
  {
    [DigitChar(n / 10), DigitChar(n % 10)]
  }

  /** The text of `score / 100.0` with two decimals, from centipawns. */
  function Pawns(score: int): string {
    var a := if score < 0 then -score else score;
    (if score < 0 then "-" else "") + NatToString(a / 100) + "." + TwoDigits(a % 100)
  }

  /** `(time + 500) / 1000` with C's truncating division. */
  function RoundedSeconds(time: int): int {
    CDiv(time + 500, 1000)
  }

  /** The comment onMoveMade records for a move made with evaluation `e`:
      empty for an empty evaluation, otherwise the signed score and depth of
      a real search, then the rounded seconds. */
  function Comment(e: MoveEvaluation): string {
    match e
    case NoEvaluation => ""
    case Evaluation(depth, score, time) =>
      (if depth > 0 then (if score > 0 then "+" else "") + Pawns(score) + "/" + IntToString(depth) + " " else "")
      + IntToString(RoundedSeconds(time)) + "s"
  }

  /** What a reader of the comment learns about the evaluation. */
  datatype Annotation =
    | Unannotated
    | TimeOnly(seconds: int)
    | Scored(score: int, depth: int, seconds: int)

  /** The information the comment is meant to carry: score and depth only
      for a real search (depth > 0), the rounded time whenever there is an
      evaluation at all. */
  function Meaning(e: MoveEvaluation): Annotation {
    match e
    case NoEvaluation => Unannotated
    case Evaluation(depth, score, time) =>
      if depth > 0 then Scored(score, depth, RoundedSeconds(time))
      else TimeOnly(RoundedSeconds(time))
  }

  /** The text before and after the first occurrence of `c`. */
  function Split(s: string, c: char): Option<(string, string)> {
    if s == [] then None
    else if s[0] == c then Some(([], s[1..]))
    else match Split(s[1..], c)
      case None => None
      case Some(p) => Some(([s[0]] + p.0, p.1))
  }

  /** "<digits>.<two digits>" read back as centipawns. */
  function ParseUnsignedPawns(s: string): Option<int> {
    match Split(s, '.')
    case None => None
    case Some(p) =>
      if |p.0| > 0 && AllDigits(p.0) && |p.1| == 2 && AllDigits(p.1)
      then Some(DigitsValue(p.0) * 100 + DigitsValue(p.1))
      else None
  }

  function ParsePawns(s: string): Option<int> {
    if |s| > 0 && s[0] == '+' then ParseUnsignedPawns(s[1..])
    else if |s| > 0 && s[0] == '-' then
      match ParseUnsignedPawns(s[1..])
      case None => None
      case Some(v) => Some(-v)
    else ParseUnsignedPawns(s)
  }

  function ParseComment(c: string): Option<Annotation> {
    if c == [] then Some(Unannotated)
    else if c[|c| - 1] != 's' then None
    else
      var body := c[..|c| - 1];
      match Split(body, ' ')
      case None =>
        (match ParseInt(body)
         case None => None
         case Some(t) => Some(TimeOnly(t)))
      case Some(p) =>
        match Split(p.0, '/')
        case None => None
        case Some(q) =>
          match (ParsePawns(q.0), ParseInt(q.1), ParseInt(p.1))
          case (Some(score), Some(depth), Some(t)) => Some(Scored(score, depth, t))
          case _ => None
  }

  lemma {:induction false} SplitFirst(a: string, c: char, b: string)
    requires c !in a
    ensures Split(a + [c] + b, c) == Some((a, b))
  {
    if a != [] {
      SplitFirst(a[1..], c, b);
      assert (a + [c] + b)[1..] == a[1..] + [c] + b;
      assert [a[0]] + a[1..] == a;
    } else {
      assert (a + [c] + b)[1..] == b;
    }
  }

  lemma {:induction false} SplitAbsent(s: string, c: char)
    requires c !in s
    ensures Split(s, c) == None
  {
    if s != [] {
      SplitAbsent(s[1..], c);
    }
  }

  lemma DigitsHaveNo(s: string, c: char)
    requires AllDigits(s) && !IsDigit(c)
    ensures c !in s
  {
  }

  lemma IntToStringHasNo(n: int, c: char)
    requires !IsDigit(c) && c != '-'
    ensures c !in IntToString(n)
  {
    if n < 0 {
      assert IntToString(n) == "-" + NatToString(-n);
    }
  }

  lemma TwoDigitsValue(n: nat)
    requires n < 100
    ensures AllDigits(TwoDigits(n)) && DigitsValue(TwoDigits(n)) == n
  {
    var t := TwoDigits(n);
    assert t[..1] == [DigitChar(n / 10)];
    assert t[..1][..0] == [];
    assert DigitValue(t[0]) == n / 10 && DigitValue(t[1]) == n % 10;
    assert DigitsValue(t[..1]) == n / 10;
  }

  lemma UnsignedPawnsRoundTrip(a: nat)
    ensures ParseUnsignedPawns(NatToString(a / 100) + "." + TwoDigits(a % 100)) == Some(a)
  {
    var ip := NatToString(a / 100);
    var fp := TwoDigits(a % 100);
    DigitsHaveNo(ip, '.');
    SplitFirst(ip, '.', fp);
    assert ip + "." + fp == ip + ['.'] + fp;
    NatToStringRoundTrip(a / 100);
    TwoDigitsValue(a % 100);
  }

  /** The unsigned pawns text is digits, a point and two digits. */
  lemma UnsignedPawnsShape(a: nat)
    ensures var u := NatToString(a / 100) + "." + TwoDigits(a % 100);
      |u| > 0 && IsDigit(u[0]) && '/' !in u && ' ' !in u
  {
    var ip := NatToString(a / 100);
    DigitsHaveNo(ip, '/');
    DigitsHaveNo(ip, ' ');
    TwoDigitsValue(a % 100);
    DigitsHaveNo(TwoDigits(a % 100), '/');
    DigitsHaveNo(TwoDigits(a % 100), ' ');
  }

  lemma PawnsRoundTrip(score: int, plus: string)
    requires plus == (if score > 0 then "+" else "")
    ensures '/' !in plus + Pawns(score) && ' ' !in plus + Pawns(score)
    ensures ParsePawns(plus + Pawns(score)) == Some(score)
  {
    var a := if score < 0 then -score else score;
    var u := NatToString(a / 100) + "." + TwoDigits(a % 100);
    var sign := if score < 0 then "-" else plus;
    assert plus + Pawns(score) == sign + u;
    UnsignedPawnsShape(a);
    UnsignedPawnsRoundTrip(a);
    if score < 0 {
      assert (sign + u)[1..] == u;
      assert ParsePawns(sign + u) == Some(-a);
    } else if score > 0 {
      assert (sign + u)[1..] == u;
    } else {
      assert sign + u == u;
    }
  }

  /** Reading a comment back recovers exactly the score (to the centipawn),
      the depth and the rounded seconds that it was written from. */
  lemma CommentRoundTrip(e: MoveEvaluation)
    ensures ParseComment(Comment(e)) == Some(Meaning(e))
  {
    match e
    case NoEvaluation =>
    case Evaluation(depth, score, time) =>
      var secs := IntToString(RoundedSeconds(time));
      IntToStringRoundTrip(RoundedSeconds(time));
      IntToStringHasNo(RoundedSeconds(time), ' ');
      var c := Comment(e);
      if depth > 0 {
        var plus := if score > 0 then "+" else "";
        var pawns := plus + Pawns(score);
        var d := IntToString(depth);
        PawnsRoundTrip(score, plus);
        IntToStringRoundTrip(depth);
        IntToStringHasNo(depth, ' ');
        var head := pawns + "/" + d;
        assert c == head + " " + secs + "s";
        assert c[..|c| - 1] == head + [' '] + secs;
        assert ' ' !in head;
        SplitFirst(head, ' ', secs);
        assert head == pawns + ['/'] + d;
        SplitFirst(pawns, '/', d);
      } else {
        assert c == secs + "s";
        assert c[..|c| - 1] == secs;
        SplitAbsent(secs, ' ');
      }
  }
}
