/** Values shared by both generations of the resolver: the coordinate pair,
    the reply of the native location service, the number parser the
    coordinate parsers rely on, and the `split(' ')` tokenizer. */
module Geo {
  import opened Errors

  /** A latitude/longitude pair. Floating point is abstracted to `real`. */
  datatype Location = Location(lat: real, long: real)

  /** What the native location service (`corelocation_rs::Location::get`)
      answers when it is asked. */
  datatype NativeReply = Fix(latitude: real, longitude: real) | Failure(fault: NativeFault)

  /** Parsing one token as a floating-point number (`str::parse::<f64>`):
      `None` for a token that is not a number.  Uninterpreted: every
      operation that parses takes it as a parameter. */
  type NumParser = string -> Option<real>

  const SPACE: char := ' '

  /** `str::split(' ')`: the pieces between single spaces, in order.  The
      empty string gives one empty piece, and two adjacent spaces give an
      empty piece between them. */
  function Split(s: string): (r: seq<string>)
    ensures |r| >= 1
    decreases |s|
  {
    if s == "" then [""]
    else
      var rest := Split(s[1..]);
      if s[0] == SPACE then [""] + rest
      else [[s[0]] + rest[0]] + rest[1..]
  }

  /** The pieces glued back together with single spaces. */
  function Join(pieces: seq<string>): string
    decreases |pieces|
  {
    if |pieces| == 0 then ""
    else if |pieces| == 1 then pieces[0]
    else pieces[0] + [SPACE] + Join(pieces[1..])
  }

  lemma JoinCons(p: string, rest: seq<string>)
    requires |rest| >= 1
    ensures Join([p] + rest) == p + [SPACE] + Join(rest)
  {
    assert ([p] + rest)[1..] == rest;
  }

  /** No piece of a split contains the separator. */
  lemma {:induction false} SplitPiecesHaveNoSpace(s: string)
    ensures forall i :: 0 <= i < |Split(s)| ==> SPACE !in Split(s)[i]
    decreases |s|
  {
    if s != "" {
      SplitPiecesHaveNoSpace(s[1..]);
      var rest := Split(s[1..]);
      if s[0] != SPACE {
        assert SPACE !in [s[0]] + rest[0];
        var r := Split(s);
        forall i | 0 <= i < |r| ensures SPACE !in r[i] {
          if i > 0 { assert r[i] == rest[i]; }
        }
      }
    }
  }

  /** Joining the pieces of a split gives back the original string. */
  lemma {:induction false} JoinSplit(s: string)
    ensures Join(Split(s)) == s
    decreases |s|
  {
    if s != "" {
      JoinSplit(s[1..]);
      var rest := Split(s[1..]);
      if s[0] == SPACE {
        JoinCons("", rest);
        assert s == [SPACE] + s[1..];
      } else if |rest| == 1 {
        assert Split(s) == [[s[0]] + rest[0]];
        assert s == [s[0]] + s[1..];
      } else {
        JoinCons(rest[0], rest[1..]);
        assert rest == [rest[0]] + rest[1..];
        JoinCons([s[0]] + rest[0], rest[1..]);
        assert s == [s[0]] + s[1..];
      }
    }
  }

  /** A string without a space is a single piece. */
  lemma {:induction false} SplitWithoutSpace(a: string)
    requires SPACE !in a
    ensures Split(a) == [a]
    decreases |a|
  {
    if a != "" {
      assert SPACE !in a[1..] by {
        forall i | 0 <= i < |a[1..]| ensures a[1..][i] != SPACE { assert a[1..][i] == a[i + 1]; }
      }
      SplitWithoutSpace(a[1..]);
      assert [a[0]] + a[1..] == a;
    }
  }

  /** Splitting at the first space: the first piece is everything before it. */
  lemma {:induction false} SplitAtFirstSpace(a: string, t: string)
    requires SPACE !in a
    ensures Split(a + [SPACE] + t) == [a] + Split(t)
    decreases |a|
  {
    var s := a + [SPACE] + t;
    if a == "" {
      assert s[1..] == t;
    } else {
      assert SPACE !in a[1..] by {
        forall i | 0 <= i < |a[1..]| ensures a[1..][i] != SPACE { assert a[1..][i] == a[i + 1]; }
      }
      SplitAtFirstSpace(a[1..], t);
      assert s[1..] == a[1..] + [SPACE] + t;
      assert [a[0]] + a[1..] == a;
    }
  }

  /** Splitting a join of space-free pieces gives back the pieces. */
  lemma {:induction false} SplitJoin(pieces: seq<string>)
    requires |pieces| >= 1
    requires forall i :: 0 <= i < |pieces| ==> SPACE !in pieces[i]
    ensures Split(Join(pieces)) == pieces
    decreases |pieces|
  {
    if |pieces| == 1 {
      SplitWithoutSpace(pieces[0]);
    } else {
      SplitJoin(pieces[1..]);
      SplitAtFirstSpace(pieces[0], Join(pieces[1..]));
      assert pieces == [pieces[0]] + pieces[1..];
    }
  }
}
