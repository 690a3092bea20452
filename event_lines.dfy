/** The per-chunk line filter of the answer-stream consumer: a decoded chunk is split on
    `'\n'`, only the pieces that start with `"data: "` are kept, and each kept piece loses
    that six-character prefix. Chunks are filtered independently; there is no buffer that
    carries a partial line from one chunk into the next. */
module EventLines {
  import opened Text

  const DataPrefix: string := "data: "

  /** True when `piece` is a candidate event line. */
  predicate IsDataLine(piece: string) {
    StartsWith(piece, DataPrefix)
  }

  /** The payloads of the candidate lines among `pieces`, in their order. */
  function PayloadsOf(pieces: seq<string>): (r: seq<string>)
    ensures |r| <= |pieces|
    ensures forall k :: 0 <= k < |r| ==> DataPrefix + r[k] in pieces
  {
    if pieces == [] then []
    else
      var head := if IsDataLine(pieces[0]) then [pieces[0][|DataPrefix|..]] else [];
      assert IsDataLine(pieces[0]) ==> DataPrefix + pieces[0][|DataPrefix|..] == pieces[0];
      head + PayloadsOf(pieces[1..])
  }

  /** `chunk.split('\n').filter(line => line.startsWith('data: '))`, each line then sliced
      past its prefix. */
  function Payloads(chunk: string): (r: seq<string>)
    ensures forall k :: 0 <= k < |r| ==> DataPrefix + r[k] in Split(chunk, '\n') && '\n' !in r[k]
  {
    assert forall x: string :: '\n' !in DataPrefix + x ==> '\n' !in x by {
      forall x: string | '\n' in x ensures '\n' in DataPrefix + x {
        assert forall c :: c in x ==> c in DataPrefix + x;
      }
    }
    PayloadsOf(Split(chunk, '\n'))
  }

  lemma {:induction false} PayloadsOfAppend(a: seq<string>, b: seq<string>)
    ensures PayloadsOf(a + b) == PayloadsOf(a) + PayloadsOf(b)
  {
    if a != [] {
      assert (a + b)[1..] == a[1..] + b;
      PayloadsOfAppend(a[1..], b);
    } else {
      assert a + b == b;
    }
  }

  /** A single line (no newline in it) yields its payload when it carries the prefix, and
      nothing otherwise: blank lines, keep-alives and anything else are discarded. */
  lemma OneLine(line: string)
    requires '\n' !in line
    ensures Payloads(line) == if IsDataLine(line) then [line[|DataPrefix|..]] else []
  {
    SplitWithoutSeparator(line, '\n');
  }

  /** A prefixed line without a newline yields exactly its payload. */
  lemma DataLine(x: string)
    requires '\n' !in x
    ensures Payloads(DataPrefix + x) == [x]
  {
    assert forall c :: c in DataPrefix + x ==> c in DataPrefix || c in x;
    OneLine(DataPrefix + x);
    assert (DataPrefix + x)[..|DataPrefix|] == DataPrefix;
    assert (DataPrefix + x)[|DataPrefix|..] == x;
  }

  /** Lines are taken in their original order: the payloads of two newline-separated parts are
      the payloads of the first part followed by those of the second. */
  lemma LinesInOrder(a: string, b: string)
    ensures Payloads(a + "\n" + b) == Payloads(a) + Payloads(b)
  {
    SplitAppend(a, '\n', b);
    PayloadsOfAppend(Split(a, '\n'), Split(b, '\n'));
  }

  lemma {:induction false} PayloadsOfMembership(pieces: seq<string>, p: string)
    ensures p in PayloadsOf(pieces) <==> DataPrefix + p in pieces
  {
    if pieces != [] {
      PayloadsOfMembership(pieces[1..], p);
      assert pieces == [pieces[0]] + pieces[1..];
      if IsDataLine(pieces[0]) {
        assert pieces[0] == DataPrefix + pieces[0][|DataPrefix|..];
      }
      assert pieces[0] == DataPrefix + p ==> IsDataLine(pieces[0]) && pieces[0][|DataPrefix|..] == p;
    }
  }

  /** A payload is produced exactly when the chunk has the line `"data: " + payload`, and no
      payload spans a newline. */
  lemma PayloadMembership(chunk: string, p: string)
    ensures p in Payloads(chunk) <==> DataPrefix + p in Split(chunk, '\n')
    ensures p in Payloads(chunk) ==> '\n' !in p
  {
    PayloadsOfMembership(Split(chunk, '\n'), p);
    if p in Payloads(chunk) {
      assert forall c :: c in p ==> c in DataPrefix + p;
    }
  }
}
