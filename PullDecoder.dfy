/** The NDJSON progress decoder run by `OllamaManager.pullModel`
    (apps/desktop/electron/main/ollama-manager.ts:162-216).

    A streamed response body arrives as chunks of text. The decoder keeps a
    carry-over buffer, splits buffer + chunk on '\n', hands every complete,
    non-blank line to the JSON parser and keeps the last fragment for the next
    chunk. The fragment left when the stream ends is dropped. `JSON.parse` is
    the abstract partial function `parse`. */
module PullDecoder {
  import opened Wrappers
  import opened Text

  /** One decoded line of the pull stream. */
  datatype PullProgress = PullProgress(status: string, digest: Option<string>, total: Option<int>, completed: Option<int>)

  /** The response to `POST /api/pull`, as seen by the decoder: a rejected
      `fetch`, a non-2xx status, a missing body, or a body read as `chunks`
      (each already decoded to text) followed by the rejection of
      `reader.read()`, if any. */
  datatype PullResponse =
    | FetchFailed(message: string)
    | NotOk(statusText: string)
    | NoBody
    | Body(chunks: seq<string>, readError: Option<string>)

  /** The pieces of `[c] + s`, given the pieces `t` of `s`. */
  function Prepend(c: char, t: seq<string>): (r: seq<string>)
    requires |t| >= 1
    ensures |r| >= 1
  {
    if c == '\n' then [""] + t else [[c] + t[0]] + t[1..]
  }

  /** `s.split('\n')`. */
  function SplitLines(s: string): (r: seq<string>)
    ensures |r| >= 1
    decreases |s|
  {
    if s == [] then [""] else Prepend(s[0], SplitLines(s[1..]))
  }

  /** `parts.join('\n')`, the inverse of SplitLines. */
  function JoinLines(parts: seq<string>): string
  {
    if parts == [] then "" else if |parts| == 1 then parts[0] else parts[0] + "\n" + JoinLines(parts[1..])
  }

  /** Splitting loses nothing: joining the pieces back with '\n' gives the input. */
  lemma {:induction false} JoinSplitLines(s: string)
    ensures JoinLines(SplitLines(s)) == s
    decreases |s|
  {
    if s != [] {
      var t := SplitLines(s[1..]);
      JoinSplitLines(s[1..]);
      if s[0] == '\n' {
        assert SplitLines(s) == [""] + t;
        assert s == "\n" + s[1..];
      } else {
        if |t| == 1 {
          assert s == [s[0]] + t[0];
        } else {
          assert JoinLines(t) == t[0] + "\n" + JoinLines(t[1..]);
          assert s == [s[0]] + t[0] + "\n" + JoinLines(t[1..]);
        }
      }
    }
  }

  /** The newline-terminated lines of `s`, in order. */
  function Complete(s: string): seq<string>
  {
    var parts := SplitLines(s);
    parts[..|parts| - 1]
  }

  /** The text after the last newline of `s` (all of `s` if it has none). */
  function Carry(s: string): string
  {
    var parts := SplitLines(s);
    parts[|parts| - 1]
  }

  /** What the read loop keeps of the text: the complete lines and the carry
      together give the text back, none of them holds a newline, and text
      without a newline is all carry. */
  lemma LinesAndCarry(s: string)
    ensures JoinLines(Complete(s) + [Carry(s)]) == s
    ensures forall i :: 0 <= i < |Complete(s)| ==> '\n' !in Complete(s)[i]
    ensures '\n' !in Carry(s)
    ensures '\n' !in s ==> Complete(s) == [] && Carry(s) == s
  {
    var parts := SplitLines(s);
    var n := |parts|;
    JoinSplitLines(s);
    PiecesWithoutNewline(s);
    assert Complete(s) + [Carry(s)] == parts;
    if '\n' !in s { SplitWithoutNewline(s); }
  }

  /** Text without a newline splits into itself alone. */
  lemma {:induction false} SplitWithoutNewline(s: string)
    requires '\n' !in s
    ensures SplitLines(s) == [s]
    decreases |s|
  {
    if s != [] {
      assert '\n' !in s[1..] by {
        forall i | 0 <= i < |s[1..]| ensures s[1..][i] != '\n' { assert s[1..][i] == s[i + 1]; }
      }
      SplitWithoutNewline(s[1..]);
      assert s == [s[0]] + s[1..];
    }
  }

  /** Prepending a character commutes with gluing text onto the last piece. */
  lemma PrependGlue(c: char, pieces: seq<string>, y: string, tail: seq<string>)
    requires |pieces| >= 1
    ensures var p := Prepend(c, pieces);
            var q := pieces[..|pieces| - 1] + [pieces[|pieces| - 1] + y] + tail;
            Prepend(c, q) == p[..|p| - 1] + [p[|p| - 1] + y] + tail
  {
    var n := |pieces|;
    var q := pieces[..n - 1] + [pieces[n - 1] + y] + tail;
    if c != '\n' && n == 1 {
      assert q == [pieces[0] + y] + tail;
      assert [c] + (pieces[0] + y) == ([c] + pieces[0]) + y;
    } else if c != '\n' {
      assert q[0] == pieces[0];
      assert q[1..] == pieces[1..n - 1] + [pieces[n - 1] + y] + tail;
    }
  }

  /** How a split of `a + b` is made of the splits of `a` and of `b`: the
      fragment of `a` after its last newline is glued to the first piece of `b`. */
  lemma {:induction false} SplitAppend(a: string, b: string)
    ensures SplitLines(a + b)
         == Complete(a) + [Carry(a) + SplitLines(b)[0]] + SplitLines(b)[1..]
    decreases |a|
  {
    var sb := SplitLines(b);
    if a == [] {
      assert a + b == b;
      assert Complete(a) == [] && Carry(a) == "";
      assert Carry(a) + sb[0] == sb[0];
      assert Complete(a) + [Carry(a) + sb[0]] + sb[1..] == sb;
    } else {
      assert (a + b)[0] == a[0];
      assert (a + b)[1..] == a[1..] + b;
      SplitAppend(a[1..], b);
      PrependGlue(a[0], SplitLines(a[1..]), sb[0], sb[1..]);
    }
  }

  /** No piece of a split holds a newline. */
  lemma {:induction false} PiecesWithoutNewline(s: string)
    ensures forall i :: 0 <= i < |SplitLines(s)| ==> '\n' !in SplitLines(s)[i]
    decreases |s|
  {
    if s != [] {
      PiecesWithoutNewline(s[1..]);
      var t := SplitLines(s[1..]);
      if s[0] != '\n' {
        assert '\n' !in [s[0]] + t[0];
        assert SplitLines(s) == [[s[0]] + t[0]] + t[1..];
      }
    }
  }

  /** The last pieces of `prefix + pieces` are those of `pieces`. */
  lemma SplitOffPrefix(prefix: seq<string>, pieces: seq<string>)
    requires |pieces| >= 1
    ensures var all := prefix + pieces;
            all[..|all| - 1] == prefix + pieces[..|pieces| - 1] && all[|all| - 1] == pieces[|pieces| - 1]
  {
  }

  /** The decoder's step: the complete lines of everything read so far plus a
      new chunk are the old complete lines followed by the complete lines of
      the carried fragment plus the chunk, and the new carry comes from the
      latter alone. */
  lemma CarryStep(s: string, chunk: string)
    ensures Complete(s + chunk) == Complete(s) + Complete(Carry(s) + chunk)
    ensures Carry(s + chunk) == Carry(Carry(s) + chunk)
  {
    var sc := SplitLines(chunk);
    var carry := Carry(s);
    SplitAppend(s, chunk);
    PiecesWithoutNewline(s);
    SplitWithoutNewline(carry);
    SplitAppend(carry, chunk);
    assert Complete(carry) == [] && Carry(carry) == carry;
    var tail := SplitLines(carry + chunk);
    assert tail == [carry + sc[0]] + sc[1..];
    assert SplitLines(s + chunk) == Complete(s) + tail;
    SplitOffPrefix(Complete(s), tail);
  }

  /** All chunks read so far, in order. */
  function Concat(chunks: seq<string>): string
  {
    if chunks == [] then "" else Concat(chunks[..|chunks| - 1]) + chunks[|chunks| - 1]
  }

  lemma ConcatStep(chunks: seq<string>, i: nat)
    requires i < |chunks|
    ensures Concat(chunks[..i + 1]) == Concat(chunks[..i]) + chunks[i]
  {
    assert chunks[..i + 1][..i] == chunks[..i];
  }

  /** The lines the decoder hands to the parser: the non-blank ones. */
  function Handed(lines: seq<string>): (r: seq<string>)
    ensures forall i :: 0 <= i < |r| ==> !IsBlank(r[i])
  {
    if lines == [] then []
    else (if IsBlank(lines[0]) then [] else [lines[0]]) + Handed(lines[1..])
  }

  /** The events that reach `onProgress`: the lines that parse, in order. */
  function Events(lines: seq<string>, parse: string -> Option<PullProgress>): (r: seq<PullProgress>)
    ensures |r| <= |lines|
    ensures (forall i :: 0 <= i < |lines| ==> parse(lines[i]).Some?) ==> |r| == |lines|
  {
    if lines == [] then []
    else
      (match parse(lines[0]) case Some(p) => [p] case None => []) + Events(lines[1..], parse)
  }

  lemma {:induction false} HandedAppend(a: seq<string>, b: seq<string>)
    ensures Handed(a + b) == Handed(a) + Handed(b)
  {
    if a == [] {
      assert a + b == b;
    } else {
      assert (a + b)[0] == a[0];
      assert (a + b)[1..] == a[1..] + b;
      HandedAppend(a[1..], b);
    }
  }

  lemma {:induction false} EventsAppend(a: seq<string>, b: seq<string>, parse: string -> Option<PullProgress>)
    ensures Events(a + b, parse) == Events(a, parse) + Events(b, parse)
  {
    if a == [] {
      assert a + b == b;
    } else {
      assert (a + b)[0] == a[0];
      assert (a + b)[1..] == a[1..] + b;
      EventsAppend(a[1..], b, parse);
    }
  }

  /** Every event comes from some complete, non-blank line that parsed. */
  lemma {:induction false} EventsFromLines(lines: seq<string>, parse: string -> Option<PullProgress>, k: nat)
    requires k < |Events(Handed(lines), parse)|
    ensures exists i :: 0 <= i < |lines| && !IsBlank(lines[i]) && parse(lines[i]) == Some(Events(Handed(lines), parse)[k])
  {
    var rest := Events(Handed(lines[1..]), parse);
    HandedAppend([lines[0]], lines[1..]);
    assert lines == [lines[0]] + lines[1..];
    EventsAppend(Handed([lines[0]]), Handed(lines[1..]), parse);
    var head := Events(Handed([lines[0]]), parse);
    if k < |head| {
      assert Handed([lines[0]]) == [lines[0]];
    } else {
      EventsFromLines(lines[1..], parse, k - |head|);
      var i :| 0 <= i < |lines[1..]| && !IsBlank(lines[1..][i]) && parse(lines[1..][i]) == Some(rest[k - |head|]);
      assert lines[i + 1] == lines[1..][i];
    }
  }

  /** The read loop of `pullModel` (ollama-manager.ts:184-208). It returns the
      lines handed to the parser, the events passed to `onProgress`, and the
      fragment dropped at the end of the stream. All three depend on the
      chunks only through their concatenation, so the way the stream is cut
      into chunks does not matter. */
  method DecodeStream(chunks: seq<string>, parse: string -> Option<PullProgress>)
    returns (handed: seq<string>, events: seq<PullProgress>, dropped: string)
    ensures handed == Handed(Complete(Concat(chunks)))
    ensures events == Events(handed, parse)
    ensures dropped == Carry(Concat(chunks)) && '\n' !in dropped
  {
    var buffer := "";
    handed, events := [], [];
    var i := 0;
    while i < |chunks|
      invariant 0 <= i <= |chunks|
      invariant buffer == Carry(Concat(chunks[..i]))
      invariant handed == Handed(Complete(Concat(chunks[..i])))
      invariant events == Events(handed, parse)
    {
      ghost var before := Concat(chunks[..i]);
      ConcatStep(chunks, i);
      CarryStep(before, chunks[i]);
      buffer := buffer + chunks[i];
      var lines := SplitLines(buffer);
      buffer := lines[|lines| - 1];
      var complete := lines[..|lines| - 1];
      var newHanded, newEvents := DeliverLines(complete, parse);
      HandedAppend(Complete(before), complete);
      EventsAppend(handed, newHanded, parse);
      handed, events := handed + newHanded, events + newEvents;
      i := i + 1;
    }
    assert chunks[..i] == chunks;
    dropped := buffer;
    PiecesWithoutNewline(Concat(chunks));
  }

  /** The inner `for (const line of lines)` loop: skip blank lines, hand the
      others to the parser, pass each parsed event on in order and drop the
      lines that fail to parse. */
  method DeliverLines(lines: seq<string>, parse: string -> Option<PullProgress>)
    returns (handed: seq<string>, events: seq<PullProgress>)
    ensures handed == Handed(lines)
    ensures events == Events(handed, parse)
  {
    handed, events := [], [];
    var j := 0;
    while j < |lines|
      invariant 0 <= j <= |lines|
      invariant handed == Handed(lines[..j])
      invariant events == Events(handed, parse)
    {
      var line := lines[j];
      assert lines[..j + 1] == lines[..j] + [line];
      HandedAppend(lines[..j], [line]);
      if !IsBlank(line) {
        EventsAppend(handed, [line], parse);
        handed := handed + [line];
        match parse(line) {
          case Some(progress) => events := events + [progress];
          case None =>
        }
      }
      j := j + 1;
    }
    assert lines[..j] == lines;
  }

  /** `pullModel` as a whole: the response checks, then the read loop. A read
      error ends the stream with a rejection, after the events already
      delivered. */
  method PullModel(response: PullResponse, parse: string -> Option<PullProgress>)
    returns (result: Outcome, events: seq<PullProgress>)
    ensures response.FetchFailed? ==> result == Fail(response.message) && events == []
    ensures response.NotOk? ==> result == Fail("Failed to pull model: " + response.statusText) && events == []
    ensures response.NoBody? ==> result == Fail("No response body") && events == []
    ensures response.Body? ==> events == Events(Handed(Complete(Concat(response.chunks))), parse)
    ensures response.Body? ==> result == (match response.readError case None => Pass case Some(m) => Fail(m))
  {
    match response {
      case FetchFailed(message) =>
        return Fail(message), [];
      case NotOk(statusText) =>
        return Fail("Failed to pull model: " + statusText), [];
      case NoBody =>
        return Fail("No response body"), [];
      case Body(chunks, readError) =>
        var handed, dropped;
        handed, events, dropped := DecodeStream(chunks, parse);
        result := match readError case None => Pass case Some(m) => Fail(m);
    }
  }

  /** However a byte sequence is cut into chunks, the decoder hands the parser
      the same lines and delivers the same events. */
  lemma ChunkingIrrelevant(a: seq<string>, b: seq<string>, parse: string -> Option<PullProgress>)
    requires Concat(a) == Concat(b)
    ensures Handed(Complete(Concat(a))) == Handed(Complete(Concat(b)))
    ensures Events(Handed(Complete(Concat(a))), parse) == Events(Handed(Complete(Concat(b))), parse)
  {
  }

  /** A newline-free line followed by its newline splits into that line and an empty carry. */
  lemma TerminatedLine(line: string)
    requires '\n' !in line
    ensures Complete(line + "\n") == [line] && Carry(line + "\n") == ""
  {
    SplitAppend(line, "\n");
    SplitWithoutNewline(line);
    assert SplitLines("\n") == ["", ""];
    assert SplitLines(line + "\n") == [] + [line + ""] + [""];
    assert line + "" == line;
  }

  /** Two newline-terminated, non-blank lines are handed over as exactly those two lines. */
  lemma TwoTerminatedLines(first: string, second: string)
    requires '\n' !in first && '\n' !in second
    requires !IsBlank(first) && !IsBlank(second)
    ensures Handed(Complete((first + "\n") + (second + "\n"))) == [first, second]
    ensures Carry((first + "\n") + (second + "\n")) == ""
  {
    TerminatedLine(first);
    TerminatedLine(second);
    CarryStep(first + "\n", second + "\n");
    assert "" + (second + "\n") == second + "\n";
    assert Complete((first + "\n") + (second + "\n")) == [first] + [second];
    assert [first, second][1..] == [second];
    assert Handed([second]) == [second] + Handed([]);
  }

  /** A stream cut in the middle of its second line still yields exactly its
      two lines, in order, and nothing is left over. */
  lemma MidLineSplit()
    ensures var first := "{\"status\":\"downloading\",\"completed\":10}";
            var second := "{\"status\":\"downloading\",\"completed\":20}";
            var chunks := [first + "\n{\"status\":\"downloa", "ding\",\"completed\":20}\n"];
            Handed(Complete(Concat(chunks))) == [first, second] && Carry(Concat(chunks)) == ""
  {
    var first := "{\"status\":\"downloading\",\"completed\":10}";
    var second := "{\"status\":\"downloading\",\"completed\":20}";
    var chunks := [first + "\n{\"status\":\"downloa", "ding\",\"completed\":20}\n"];
    assert Concat(chunks) == (first + "\n") + (second + "\n") by {
      assert chunks[..1] == [chunks[0]];
      assert Concat(chunks[..1]) == Concat([]) + chunks[0];
      assert Concat(chunks) == chunks[0] + chunks[1];
    }
    assert '\n' !in first && '\n' !in second;
    assert !IsBlank(first) by { assert first[0] == '{'; }
    assert !IsBlank(second) by { assert second[0] == '{'; }
    TwoTerminatedLines(first, second);
  }
}
