/**
 The dashboard's "campgrounds by state" search. The query text is cut into
 state tokens (spaces removed, split on commas, each piece stripped and
 upper-cased); the backend is asked once per token, in token order, and the
 rows of every good response are appended to one result list.

 The HTTP request is a parameter: `fetch` gives the response the backend
 returns for one state token.
 */
module StateSearch {
  import opened Wrappers
  import opened PyStr

  // ---------------------------------------------------------------- tokens

  /** `query.replace(" ", "")` leaves no space and every other character's count. */
  lemma {:induction false} RemoveSpaces(s: string)
    ensures ' ' !in Replace(s, " ", "")
    ensures forall c :: c != ' ' ==> Count(Replace(s, " ", ""), c) == Count(s, c)
    ensures forall c :: c in Replace(s, " ", "") ==> c in s
    decreases |s|
  {
    if |s| >= 1 {
      var rest := Replace(s[1..], " ", "");
      RemoveSpaces(s[1..]);
      if s[..1] == " " {
        assert Replace(s, " ", "") == rest;
        assert s[0] == ' ';
      } else {
        var out := [s[0]] + rest;
        assert Replace(s, " ", "") == out;
        assert s[0] != ' ' by { assert s[..1] == [s[0]]; }
        assert out[1..] == rest;
        forall c | c in out ensures c in s {
          if c != s[0] { assert c in rest; }
        }
      }
    }
  }

  /** Upper-casing never produces a space, a comma or whitespace it was not given. */
  lemma UpperKeeps(s: string)
    ensures forall c :: c in Upper(s) && (c == ' ' || c == ',' || IsSpace(c)) ==> c in s
    ensures Upper(s) != [] ==> (IsSpace(Upper(s)[0]) <==> IsSpace(s[0]))
    ensures Upper(s) != [] ==> (IsSpace(Upper(s)[|s| - 1]) <==> IsSpace(s[|s| - 1]))
  {
    forall c | c in Upper(s) && (c == ' ' || c == ',' || IsSpace(c)) ensures c in s {
      var i :| 0 <= i < |s| && Upper(s)[i] == c;
      assert UpperChar(s[i]) == c;
    }
  }

  /**
   What a state token looks like: no space, no comma, upper case, and no
   whitespace at either end.
   */
  predicate IsToken(t: string) {
    && ' ' !in t && ',' !in t
    && Upper(t) == t
    && (t != [] ==> !IsSpace(t[0]) && !IsSpace(t[|t| - 1]))
  }

  /** One state token: the stripped, upper-cased piece. */
  function Token(segment: string): (t: string)
    ensures ' ' !in segment && ',' !in segment ==> IsToken(t)
  {
    var stripped := Strip(segment);
    UpperKeeps(stripped);
    UpperIdempotent(stripped);
    Upper(stripped)
  }

  /**
   `[s.strip().upper() for s in query.replace(" ", "").split(",")]`: one token
   per comma-separated piece, in input order, empty pieces kept; no token
   holds a space or a comma, and each is upper case with no surrounding
   whitespace.
   */
  function StateTokens(query: string): (tokens: seq<string>)
    ensures |tokens| == Count(query, ',') + 1
    ensures forall i :: 0 <= i < |tokens| ==> IsToken(tokens[i])
  {
    var cleaned := Replace(query, " ", "");
    RemoveSpaces(query);
    var segments := Split(cleaned, ',');
    assert forall i :: 0 <= i < |segments| ==> ' ' !in segments[i] by {
      JoinSplit(cleaned, ',');
      forall i | 0 <= i < |segments| ensures ' ' !in segments[i] {
        JoinHolds(segments, ',', i);
      }
    }
    seq(|segments|, i requires 0 <= i < |segments| => Token(segments[i]))
  }

  /** A token is its own token: stripping and upper-casing it again changes nothing. */
  lemma TokenFixed(t: string)
    requires IsToken(t)
    ensures Token(t) == t
  {
    StripTrimmed(t);
  }

  /** Text made of well-formed tokens joined with commas cuts back into those tokens. */
  lemma TokensOfJoin(tokens: seq<string>)
    requires |tokens| >= 1 && forall i :: 0 <= i < |tokens| ==> IsToken(tokens[i])
    ensures StateTokens(Join(tokens, ',')) == tokens
  {
    var joined := Join(tokens, ',');
    assert Replace(joined, " ", "") == joined by {
      assert forall i :: 0 <= i < |tokens| ==> ' ' !in tokens[i];
      JoinWithout(tokens, ',', ' ');
      ReplaceWithoutLast(joined, " ", "");
    }
    assert Split(joined, ',') == tokens by {
      assert forall i :: 0 <= i < |tokens| ==> ',' !in tokens[i];
      SplitJoin(tokens, ',');
    }
    var again := StateTokens(joined);
    forall i | 0 <= i < |tokens| ensures again[i] == tokens[i] {
      TokenFixed(tokens[i]);
    }
  }

  /**
   Normalising is idempotent: the tokens joined back with commas give the
   same tokens again.
   */
  lemma TokensIdempotent(query: string)
    ensures StateTokens(Join(StateTokens(query), ',')) == StateTokens(query)
  {
    TokensOfJoin(StateTokens(query));
  }

  /** Upper-casing the parts one by one is upper-casing the comma-joined text. */
  lemma {:induction false} JoinUpper(parts: seq<string>, tokens: seq<string>)
    requires |tokens| == |parts| && forall i :: 0 <= i < |parts| ==> tokens[i] == Upper(parts[i])
    ensures Join(tokens, ',') == Upper(Join(parts, ','))
    decreases |parts|
  {
    if |parts| > 1 {
      JoinUpper(parts[1..], tokens[1..]);
      var head := parts[0] + [','];
      var rest := Join(parts[1..], ',');
      UpperAppend(head, rest);
      UpperAppend(parts[0], [',']);
      assert Upper([',']) == [','];
    }
  }

  /**
   When the only whitespace in the query is spaces, the tokens are exactly
   the comma-separated pieces of the space-free, upper-cased query, in order:
   joined back with commas they give that text.
   */
  lemma TokensRejoin(query: string)
    requires forall c :: c in query && IsSpace(c) ==> c == ' '
    ensures Join(StateTokens(query), ',') == Upper(Replace(query, " ", ""))
  {
    var cleaned := Replace(query, " ", "");
    RemoveSpaces(query);
    var segments := Split(cleaned, ',');
    var tokens := StateTokens(query);
    JoinSplit(cleaned, ',');
    forall i | 0 <= i < |segments| ensures tokens[i] == Upper(segments[i]) {
      JoinHolds(segments, ',', i);
      StripTrimmed(segments[i]);
    }
    JoinUpper(segments, tokens);
  }

  // ---------------------------------------------------------------- accumulation

  /**
   What the backend answered for one token: the status code, the body text,
   and the rows when the body decodes as a JSON list (`None` when decoding or
   extending the result list raises).
   */
  datatype Response<T> = Response(status: int, text: string, json: Option<seq<T>>)

  /** The two error banners the loop can show. */
  datatype Notice = InvalidJson(state: string) | ServerError(state: string, text: string)

  /** What the section shows after the loop. */
  datatype View<T> = NoQuery | Table(rows: seq<T>) | NothingFound

  /** The rows one response adds: all of them on a good answer, none otherwise. */
  function Contribution<T>(r: Response<T>): (rows: seq<T>)
    ensures r.status != 200 ==> rows == []
    ensures r.json.None? ==> rows == []
    ensures r.status == 200 && r.json.Some? ==> rows == r.json.value
  {
    if r.status == 200 && r.json.Some? then r.json.value else []
  }

  /** The banner one response raises, if any: exactly the responses that add no rows by failing. */
  function NoticeOf<T>(state: string, r: Response<T>): (n: Option<Notice>)
    ensures n.None? <==> r.status == 200 && r.json.Some?
    ensures r.status != 200 ==> n == Some(ServerError(state, r.text))
    ensures r.status == 200 && r.json.None? ==> n == Some(InvalidJson(state))
  {
    if r.status != 200 then Some(ServerError(state, r.text))
    else if r.json.None? then Some(InvalidJson(state))
    else None
  }

  /**
   The result list after asking for each token in order: every row in it was
   returned by a good response to one of the tokens.
   */
  function Collected<T>(tokens: seq<string>, fetch: string -> Response<T>): (rows: seq<T>)
    ensures forall x :: x in rows ==>
      exists i :: 0 <= i < |tokens| && x in Contribution(fetch(tokens[i]))
  {
    if tokens == [] then []
    else
      var rest := tokens[1..];
      assert forall i :: 0 <= i < |rest| ==> rest[i] == tokens[i + 1];
      Contribution(fetch(tokens[0])) + Collected(rest, fetch)
  }

  /** The banner of one token as a list: empty when its response was good. */
  function NoticeFor<T>(state: string, r: Response<T>): seq<Notice> {
    match NoticeOf(state, r)
    case Some(n) => [n]
    case None => []
  }

  /**
   The banners shown, in token order: at most one per token, and each one is
   the banner of some token's failed response.
   */
  function Notices<T>(tokens: seq<string>, fetch: string -> Response<T>): (notices: seq<Notice>)
    ensures |notices| <= |tokens|
    ensures forall k :: 0 <= k < |notices| ==>
      exists i :: 0 <= i < |tokens| && NoticeOf(tokens[i], fetch(tokens[i])) == Some(notices[k])
  {
    if tokens == [] then []
    else
      var rest := tokens[1..];
      assert forall i :: 0 <= i < |rest| ==> rest[i] == tokens[i + 1];
      NoticeFor(tokens[0], fetch(tokens[0])) + Notices(rest, fetch)
  }

  /** Asking for two runs of tokens collects the first run's rows, then the second's. */
  lemma {:induction false} CollectedAppend<T>(a: seq<string>, b: seq<string>, fetch: string -> Response<T>)
    ensures Collected(a + b, fetch) == Collected(a, fetch) + Collected(b, fetch)
    decreases |a|
  {
    if a == [] {
      assert a + b == b;
    } else {
      assert (a + b)[1..] == a[1..] + b;
      CollectedAppend(a[1..], b, fetch);
      var x, y, z := Contribution(fetch(a[0])), Collected(a[1..], fetch), Collected(b, fetch);
      assert x + (y + z) == x + y + z;
    }
  }

  /** The banners of two runs of tokens are those of the first run, then the second's. */
  lemma {:induction false} NoticesAppend<T>(a: seq<string>, b: seq<string>, fetch: string -> Response<T>)
    ensures Notices(a + b, fetch) == Notices(a, fetch) + Notices(b, fetch)
    decreases |a|
  {
    if a == [] {
      assert a + b == b;
    } else {
      assert (a + b)[1..] == a[1..] + b;
      NoticesAppend(a[1..], b, fetch);
      var x, y, z := NoticeFor(a[0], fetch(a[0])), Notices(a[1..], fetch), Notices(b, fetch);
      assert x + (y + z) == x + y + z;
    }
  }

  /** A single token collects exactly what its response contributes, and shows its banner. */
  lemma CollectedOne<T>(t: string, fetch: string -> Response<T>)
    ensures Collected([t], fetch) == Contribution(fetch(t))
    ensures Notices([t], fetch) == NoticeFor(t, fetch(t))
  {
    assert [t][1..] == [];
  }

  /**
   The "no campgrounds" warning is shown exactly when no token's response
   contributed a row.
   */
  lemma {:induction false} CollectedEmptyIff<T>(tokens: seq<string>, fetch: string -> Response<T>)
    ensures Collected(tokens, fetch) == [] <==>
      forall i :: 0 <= i < |tokens| ==> Contribution(fetch(tokens[i])) == []
    decreases |tokens|
  {
    if tokens != [] {
      var rest := tokens[1..];
      CollectedEmptyIff(rest, fetch);
      assert forall i :: 0 <= i < |rest| ==> rest[i] == tokens[i + 1];
      if Collected(tokens, fetch) == [] {
        forall i | 0 <= i < |tokens| ensures Contribution(fetch(tokens[i])) == [] {
          if i > 0 { assert tokens[i] == rest[i - 1]; }
        }
      }
    }
  }

  /**
   The loop over the tokens: ask for each in order, append the rows of every
   good response, and show a banner for every failed one.
   */
  method Accumulate<T>(states: seq<string>, fetch: string -> Response<T>) returns (allResults: seq<T>, notices: seq<Notice>)
    ensures allResults == Collected(states, fetch)
    ensures notices == Notices(states, fetch)
  {
    allResults, notices := [], [];
    for i := 0 to |states|
      invariant allResults == Collected(states[..i], fetch)
      invariant notices == Notices(states[..i], fetch)
    {
      var s := states[i];
      var response := fetch(s);
      assert states[..i + 1] == states[..i] + [s];
      CollectedAppend(states[..i], [s], fetch);
      NoticesAppend(states[..i], [s], fetch);
      CollectedOne(s, fetch);
      if response.status == 200 {
        if response.json.Some? {
          allResults := allResults + response.json.value;
        } else {
          notices := notices + [InvalidJson(s)];
        }
      } else {
        notices := notices + [ServerError(s, response.text)];
      }
    }
    assert states[..|states|] == states;
  }

  /**
   The whole section: nothing happens for an empty query; otherwise every
   token is asked for in order, and the table or the warning is shown
   depending on whether any row came back.
   */
  method SearchByState<T>(query: string, fetch: string -> Response<T>) returns (view: View<T>, notices: seq<Notice>)
    ensures query == [] ==> view == NoQuery && notices == []
    ensures query != [] ==> notices == Notices(StateTokens(query), fetch)
    ensures query != [] && Collected(StateTokens(query), fetch) != [] ==>
      view == Table(Collected(StateTokens(query), fetch))
    ensures query != [] && Collected(StateTokens(query), fetch) == [] ==> view == NothingFound
  {
    if query == [] {
      return NoQuery, [];
    }
    var allResults;
    allResults, notices := Accumulate(StateTokens(query), fetch);
    if allResults != [] {
      view := Table(allResults);
    } else {
      view := NothingFound;
    }
  }
}
