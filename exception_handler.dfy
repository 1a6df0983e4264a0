/** GlobalExceptionHandler: how an exception that escapes a controller becomes an error
    response. */
module ExceptionHandler {
  import opened Common

  /** Result.error(msg): an error response carrying the message. */
  datatype Response = ErrorResponse(msg: string)

  /** The handler for the business exceptions (BaseException): the response carries the
      exception's own message. The runtime exceptions are not handled here. */
  function HandleBusiness(e: Error): (r: Option<Response>)
    ensures r.Some? <==> e.Business?
    ensures r.Some? ==> r.value.msg == e.message
  {
    if e.Business? then Some(ErrorResponse(e.message)) else None
  }

  /** String.contains: t occurs in s at some position. */
  predicate Contains(s: string, t: string)
    decreases |s|
  {
    (|t| <= |s| && s[..|t|] == t) || (s != [] && Contains(s[1..], t))
  }

  /** The pieces of s between the occurrences of c, empty pieces included. */
  function Pieces(s: string, c: char): (r: seq<string>)
    ensures |r| >= 1
    ensures forall i :: 0 <= i < |r| ==> c !in r[i]
    decreases |s|
  {
    if s == [] then [[]]
    else
      var rest := Pieces(s[1..], c);
      if s[0] == c then [[]] + rest
      else [[s[0]] + rest[0]] + rest[1..]
  }

  /** The pieces joined back with c. */
  function Join(pieces: seq<string>, c: char): string
    requires |pieces| >= 1
  {
    if |pieces| == 1 then pieces[0] else pieces[0] + [c] + Join(pieces[1..], c)
  }

  /** Splitting and joining back gives the string itself. */
  lemma {:induction false} JoinPieces(s: string, c: char)
    ensures Join(Pieces(s, c), c) == s
    decreases |s|
  {
    if s != [] {
      var rest := Pieces(s[1..], c);
      JoinPieces(s[1..], c);
      if s[0] != c {
        if |rest| == 1 {
          assert [s[0]] + rest[0] == [s[0]] + s[1..];
        } else {
          assert rest == [rest[0]] + rest[1..];
          assert Join([[s[0]] + rest[0]] + rest[1..], c) == [s[0]] + rest[0] + [c] + Join(rest[1..], c);
          assert Join(rest, c) == rest[0] + [c] + Join(rest[1..], c);
        }
      }
    }
  }

  /** The list without its trailing empty strings. */
  function DropTrailingEmpty(pieces: seq<string>): (r: seq<string>)
    ensures |r| <= |pieces| && r == pieces[..|r|]
    ensures r == [] || r[|r| - 1] != []
    ensures forall i :: |r| <= i < |pieces| ==> pieces[i] == []
  {
    if pieces == [] then []
    else if pieces[|pieces| - 1] == [] then DropTrailingEmpty(pieces[..|pieces| - 1])
    else pieces
  }

  /** String.split(" ") with no limit: the whole string when it holds no space, otherwise its
      pieces between spaces with the trailing empty ones dropped. */
  function SplitOnSpace(s: string): (r: seq<string>)
  {
    if ' ' !in s then [s] else DropTrailingEmpty(Pieces(s, ' '))
  }

  const DuplicateEntry: string := "Duplicate entry"

  /** The handler for SQLIntegrityConstraintViolationException: a duplicate-entry message names
      its third space-separated token as already existing; indexing a split with fewer than
      three tokens raises ArrayIndexOutOfBoundsException; any other message is an unknown
      error. */
  function HandleSqlIntegrity(message: string): (r: Result<Response>)
    ensures !Contains(message, DuplicateEntry) ==> r == Success(ErrorResponse(UnknownError))
    ensures r.Failure? ==> r.error == IndexOutOfBounds && Contains(message, DuplicateEntry)
    ensures r.Success? && Contains(message, DuplicateEntry) ==>
              |SplitOnSpace(message)| >= 3 && r.value.msg == SplitOnSpace(message)[2] + AlreadyExists
    ensures Contains(message, DuplicateEntry) && |SplitOnSpace(message)| < 3 ==> r == Failure(IndexOutOfBounds)
  {
    if Contains(message, DuplicateEntry) then
      var split := SplitOnSpace(message);
      if |split| < 3 then Failure(IndexOutOfBounds)
      else Success(ErrorResponse(split[2] + AlreadyExists))
    else Success(ErrorResponse(UnknownError))
  }

  /** Splitting at a separator splits the two sides apart. */
  lemma {:induction false} PiecesAround(a: string, b: string, c: char)
    ensures Pieces(a + [c] + b, c) == Pieces(a, c) + Pieces(b, c)
    decreases |a|
  {
    if a == [] {
      assert a + [c] + b == [c] + b;
      assert ([c] + b)[1..] == b;
    } else {
      assert (a + [c] + b)[1..] == a[1..] + [c] + b;
      assert (a + [c] + b)[0] == a[0];
      PiecesAround(a[1..], b, c);
    }
  }

  /** A string without the separator is one piece. */
  lemma {:induction false} PiecesOfWord(w: string, c: char)
    requires c !in w
    ensures Pieces(w, c) == [w]
    decreases |w|
  {
    if w != [] {
      PiecesOfWord(w[1..], c);
      assert [w[0]] + w[1..] == w;
    }
  }

  /** Trailing empties after a non-empty piece never reach into it. */
  lemma {:induction false} DropTrailingAfter(p: seq<string>, q: seq<string>)
    requires p != [] && p[|p| - 1] != []
    ensures DropTrailingEmpty(p + q) == p + DropTrailingEmpty(q)
    decreases |q|
  {
    if q == [] {
      assert p + q == p;
    } else {
      assert (p + q)[..|p + q| - 1] == p + q[..|q| - 1];
      if q[|q| - 1] == [] {
        DropTrailingAfter(p, q[..|q| - 1]);
      }
    }
  }

  /** The pieces of a message of three words and a rest, all split at spaces. */
  lemma ThreeWordPieces(w1: string, w2: string, w3: string, rest: string)
    requires ' ' !in w1 && ' ' !in w2 && ' ' !in w3
    ensures Pieces(w1 + [' '] + w2 + [' '] + w3 + [' '] + rest, ' ') == [w1, w2, w3] + Pieces(rest, ' ')
  {
    var tail := w3 + [' '] + rest;
    assert w1 + [' '] + w2 + [' '] + w3 + [' '] + rest == w1 + [' '] + (w2 + [' '] + tail);
    PiecesAround(w1, w2 + [' '] + tail, ' ');
    PiecesAround(w2, tail, ' ');
    PiecesAround(w3, rest, ' ');
    PiecesOfWord(w1, ' ');
    PiecesOfWord(w2, ' ');
    PiecesOfWord(w3, ' ');
  }

  /** A message that starts with "Duplicate entry", then a space, a value free of spaces,
      another space and anything: the response names that value. This is the shape of
      MySQL's duplicate-key message, "Duplicate entry 'v' for key 'k'". */
  lemma DuplicateEntryNamesValue(value: string, rest: string)
    requires value != [] && ' ' !in value
    ensures HandleSqlIntegrity(DuplicateEntry + " " + value + " " + rest) == Success(ErrorResponse(value + AlreadyExists))
  {
    var d1, d2 := "Duplicate", "entry";
    assert DuplicateEntry == d1 + [' '] + d2;
    var message := DuplicateEntry + " " + value + " " + rest;
    assert message == d1 + [' '] + d2 + [' '] + value + [' '] + rest;
    assert message[..|DuplicateEntry|] == DuplicateEntry;
    assert Contains(message, DuplicateEntry);
    assert message[|DuplicateEntry|] == ' ';
    ThreeWordPieces(d1, d2, value, rest);
    DropTrailingAfter([d1, d2, value], Pieces(rest, ' '));
    assert SplitOnSpace(message)[2] == value;
  }

  /** A message of two space-free words that contains "Duplicate entry" has only two tokens,
      so indexing the third makes the handler itself fail. */
  lemma TwoWordMessageFails(w1: string, w2: string)
    requires ' ' !in w1 && ' ' !in w2 && w2 != []
    requires Contains(w1 + [' '] + w2, DuplicateEntry)
    ensures HandleSqlIntegrity(w1 + [' '] + w2) == Failure(IndexOutOfBounds)
  {
    var message := w1 + [' '] + w2;
    assert message[|w1|] == ' ';
    PiecesAround(w1, w2, ' ');
    PiecesOfWord(w1, ' ');
    PiecesOfWord(w2, ' ');
    assert Pieces(message, ' ') == [w1, w2];
  }

  /** The message "Duplicate entry" alone is such a message. */
  lemma ShortDuplicateMessageFails()
    ensures HandleSqlIntegrity(DuplicateEntry) == Failure(IndexOutOfBounds)
  {
    var d1, d2 := "Duplicate", "entry";
    assert DuplicateEntry == d1 + [' '] + d2;
    assert DuplicateEntry[..|DuplicateEntry|] == DuplicateEntry;
    TwoWordMessageFails(d1, d2);
  }
}
