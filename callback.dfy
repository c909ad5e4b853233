/** The authorization-code extraction of the OAuth callback handler: the code
    is taken from the first query parameter that starts with `code=`, as the
    second piece of that parameter split at `=`. */
module OAuthCallback {
  import opened Outcomes

  const CodeKey: string := "code="

  // ---------------------------------------------------------------------------
  // `String.split` on a one-character separator.

  function FirstIndex(s: string, c: char): (i: nat)
    requires c in s
    ensures i < |s| && s[i] == c && c !in s[..i]
  {
    if s[0] == c then 0 else 1 + FirstIndex(s[1..], c)
  }

  lemma {:induction false} FirstIndexAtMost(s: string, c: char, j: nat)
    requires j < |s| && s[j] == c
    ensures FirstIndex(s, c) <= j
    decreases j
  {
    if s[0] != c {
      FirstIndexAtMost(s[1..], c, j - 1);
    }
  }

  /** The pieces of `s` between occurrences of `sep`, empty pieces included. */
  function Segments(s: string, sep: char): (r: seq<string>)
    ensures |r| >= 1
    decreases |s|
  {
    if sep !in s then [s]
    else
      var i := FirstIndex(s, sep);
      [s[..i]] + Segments(s[i + 1..], sep)
  }

  /** The pieces joined back with the separator between them. */
  function Join(parts: seq<string>, sep: char): string
    decreases |parts|
  {
    if parts == [] then []
    else if |parts| == 1 then parts[0]
    else parts[0] + [sep] + Join(parts[1..], sep)
  }

  lemma JoinCons(a: string, rest: seq<string>, sep: char)
    requires rest != []
    ensures Join([a] + rest, sep) == a + [sep] + Join(rest, sep)
  {
    assert ([a] + rest)[1..] == rest;
  }

  /** Splitting loses nothing: the pieces join back to the input. */
  lemma {:induction false} SegmentsJoin(s: string, sep: char)
    ensures Join(Segments(s, sep), sep) == s
    decreases |s|
  {
    if sep in s {
      var i := FirstIndex(s, sep);
      SegmentsJoin(s[i + 1..], sep);
      JoinCons(s[..i], Segments(s[i + 1..], sep), sep);
      assert s == s[..i] + [sep] + s[i + 1..];
    }
  }

  /** No piece holds the separator. */
  lemma {:induction false} SegmentsExcludeSeparator(s: string, sep: char)
    ensures forall piece :: piece in Segments(s, sep) ==> sep !in piece
    decreases |s|
  {
    if sep in s {
      var i := FirstIndex(s, sep);
      SegmentsExcludeSeparator(s[i + 1..], sep);
    }
  }

  function DropTrailingEmpty(parts: seq<string>): (r: seq<string>)
    ensures |r| <= |parts| && r == parts[..|r|]
    ensures forall k :: |r| <= k < |parts| ==> parts[k] == []
    ensures r != [] ==> r[|r| - 1] != []
    decreases |parts|
  {
    if parts == [] then []
    else if parts[|parts| - 1] == [] then DropTrailingEmpty(parts[..|parts| - 1])
    else parts
  }

  /** `s.split(sep)` with Java's rules: no occurrence gives `[s]`, otherwise
      the pieces with trailing empty ones removed. */
  function JavaSplit(s: string, sep: char): (r: seq<string>)
    ensures sep !in s ==> r == [s]
    ensures forall piece :: piece in r ==> sep !in piece
    ensures sep in s ==>
      && r <= Segments(s, sep)
      && (forall k :: |r| <= k < |Segments(s, sep)| ==> Segments(s, sep)[k] == [])
      && (r != [] ==> r[|r| - 1] != [])
  {
    if sep !in s then [s]
    else
      SegmentsExcludeSeparator(s, sep);
      DropTrailingEmpty(Segments(s, sep))
  }

  // ---------------------------------------------------------------------------
  // The handler.

  /** What the handler does with a request. */
  datatype CallbackResult =
    | TokenExchange(code: string)  // the code is exchanged for tokens
    | BadRequest                   // 400 "Missing 'code' parameter"
    | HandlerFailure               // an exception escapes the handler

  /** `findFirst` over the parameters that start with `code=`. */
  function FirstCodeParam(params: seq<string>): (r: Option<string>)
    ensures r.None? <==> forall p :: p in params ==> !(CodeKey <= p)
    ensures r.Some? ==> exists i ::
      && 0 <= i < |params| && params[i] == r.value && CodeKey <= r.value
      && forall j :: 0 <= j < i ==> !(CodeKey <= params[j])
    decreases |params|
  {
    if params == [] then None
    else if CodeKey <= params[0] then assert params[0] in params; Some(params[0])
    else
      var rest := FirstCodeParam(params[1..]);
      assert params == [params[0]] + params[1..];
      assert (forall p :: p in params ==> !(CodeKey <= p)) <==> (forall p :: p in params[1..] ==> !(CodeKey <= p)) by {
        assert forall p :: p in params <==> p == params[0] || p in params[1..];
      }
      assert rest.Some? ==> exists i ::
        && 0 < i < |params| && params[i] == rest.value && CodeKey <= rest.value
        && forall j :: 0 <= j < i ==> !(CodeKey <= params[j]) by {
        if rest.Some? {
          var i :| 0 <= i < |params[1..]| && params[1..][i] == rest.value && CodeKey <= rest.value
            && forall j :: 0 <= j < i ==> !(CodeKey <= params[1..][j]);
          assert forall j :: 0 < j < i + 1 ==> params[j] == params[1..][j - 1];
        }
      }
      rest
  }

  /** The stream-based handler: a missing (null) query makes `split` throw,
      and so does a first `code=` parameter followed by nothing but `=`
      (an `ArrayIndexOutOfBoundsException`); without a `code=` parameter the
      answer is 400; otherwise the code is the text of that parameter between
      the key and the next `=`. */
  function HandleCallback(query: JString): (r: CallbackResult)
    ensures r == BadRequest <==> query.Some? && forall p :: p in JavaSplit(query.value, '&') ==> !(CodeKey <= p)
    ensures r == HandlerFailure <==>
      || query.None?
      || (FirstCodeParam(JavaSplit(query.value, '&')).Some?
          && AllEquals(FirstCodeParam(JavaSplit(query.value, '&')).value[|CodeKey|..]))
    ensures r.TokenExchange? ==>
      && query.Some? && FirstCodeParam(JavaSplit(query.value, '&')).Some?
      && r.code == TakeUntil(FirstCodeParam(JavaSplit(query.value, '&')).value[|CodeKey|..], '=')
      && '=' !in r.code
  {
    match query
    case None => HandlerFailure
    case Some(q) =>
      match FirstCodeParam(JavaSplit(q, '&'))
      case None => BadRequest
      case Some(param) =>
        CodeOfParam(param);
        var parts := JavaSplit(param, '=');
        if |parts| < 2 then HandlerFailure else TokenExchange(parts[1])
  }

  /** The handler of the first version: a loop that stops at the first
      parameter starting with `code=`. It behaves as the stream-based one. */
  method LegacyHandleCallback(query: JString) returns (r: CallbackResult)
    ensures r == HandleCallback(query)
  {
    if query.None? {
      return HandlerFailure;
    }
    var params := JavaSplit(query.value, '&');
    var code: JString := None;
    var i := 0;
    while i < |params|
      invariant 0 <= i <= |params|
      invariant FirstCodeParam(params) == FirstCodeParam(params[i..])
    {
      assert params[i..][1..] == params[i + 1..];
      if CodeKey <= params[i] {
        var parts := JavaSplit(params[i], '=');
        if |parts| < 2 {
          return HandlerFailure;
        }
        code := Some(parts[1]);
        break;
      }
      i := i + 1;
    }
    if code.None? {
      assert params[i..] == [];
      return BadRequest;
    }
    r := TokenExchange(code.value);
  }

  // ---------------------------------------------------------------------------
  // What the extracted code is.

  /** The text up to the first `c`, all of `s` when there is none. */
  function TakeUntil(s: string, c: char): (r: string)
    ensures r <= s && c !in r
    ensures |r| < |s| ==> s[|r|] == c
  {
    if c in s then s[..FirstIndex(s, c)] else s
  }

  predicate AllEquals(s: string) {
    forall k :: 0 <= k < |s| ==> s[k] == '='
  }

  predicate AllEmpty(parts: seq<string>) {
    forall k :: 0 <= k < |parts| ==> parts[k] == []
  }

  /** Every piece of the split at `=` is empty exactly when the text is
      nothing but `=`. */
  lemma {:induction false} SegmentsAllEmpty(s: string)
    ensures AllEmpty(Segments(s, '=')) <==> AllEquals(s)
    decreases |s|
  {
    if '=' in s {
      var i := FirstIndex(s, '=');
      var tail := s[i + 1..];
      var rest := Segments(tail, '=');
      SegmentsAllEmpty(tail);
      var all := [s[..i]] + rest;
      assert all == Segments(s, '=');
      if AllEquals(s) {
        assert s[0] == '=';
        forall k | 0 <= k < |tail| ensures tail[k] == '=' {
          assert tail[k] == s[k + 1];
        }
        forall k | 0 <= k < |all| ensures all[k] == [] {
          if k > 0 {
            assert all[k] == rest[k - 1];
          }
        }
      }
      if forall k :: 0 <= k < |all| ==> all[k] == [] {
        assert all[0] == s[..i] == [];
        forall k | 0 <= k < |rest| ensures rest[k] == [] {
          assert rest[k] == all[k + 1];
        }
        forall k | 0 <= k < |s| ensures s[k] == '=' {
          if k > i {
            assert tail[k - i - 1] == s[k];
          }
        }
      }
    } else {
      assert Segments(s, '=') == [s];
      assert |s| > 0 ==> s[0] in s && s[0] != '=';
      assert Segments(s, '=')[0] == s;
    }
  }

  /** The value of a `code=` parameter: the handler fails when nothing but `=`
      follows the key, and otherwise takes the text between the first and the
      second `=`. */
  lemma CodeOfParam(param: string)
    requires CodeKey <= param
    ensures var parts := JavaSplit(param, '=');
      var rest := param[|CodeKey|..];
      && (|parts| < 2 <==> AllEquals(rest))
      && (|parts| >= 2 ==> parts[1] == TakeUntil(rest, '='))
  {
    var rest := param[|CodeKey|..];
    assert param[4] == '=' && param[..4] == "code";
    assert '=' in param;
    var i := FirstIndex(param, '=');
    FirstIndexAtMost(param, '=', 4);
    assert forall k :: 0 <= k < 4 ==> param[k] == "code"[k] != '=';
    assert i == 4;
    assert param[i + 1..] == rest;
    var segs := Segments(param, '=');
    var tail := Segments(rest, '=');
    assert segs == ["code"] + tail;
    var parts := JavaSplit(param, '=');
    SegmentsAllEmpty(rest);
    if AllEquals(rest) {
      assert AllEmpty(tail);
      forall k | 1 <= k < |segs| ensures segs[k] == [] {
        assert segs[k] == tail[k - 1];
      }
    } else {
      var k :| 0 <= k < |tail| && tail[k] != [];
      assert segs[k + 1] == tail[k];
    }
    if |parts| >= 2 {
      assert parts[1] == segs[1] == tail[0];
      if '=' in rest {
        assert tail[0] == rest[..FirstIndex(rest, '=')];
      }
    }
  }

  /** A query that is exactly one `code` parameter carrying a non-empty value
      without `=` or `&` hands that value to the token exchange. */
  lemma CodeRoundTrip(code: string)
    requires code != [] && '=' !in code && '&' !in code
    ensures HandleCallback(Some(CodeKey + code)) == TokenExchange(code)
  {
    var q := CodeKey + code;
    assert q[|CodeKey|..] == code;
    assert '&' !in q by {
      forall k | 0 <= k < |q| ensures q[k] != '&' {
        if k >= |CodeKey| {
          assert q[k] == code[k - |CodeKey|];
        }
      }
    }
    assert JavaSplit(q, '&') == [q];
    assert CodeKey <= q;
    CodeOfParam(q);
    assert !AllEquals(code) by {
      assert code[0] != '=';
    }
  }
}
