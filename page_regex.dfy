/** The path matcher of lib/routing.ts (makePageRegex): a page name such as
    `/users/[id]` becomes a regular-expression source in which every
    dynamic segment `[\w+]` is replaced by the group `(\[\w+\])`, plus the
    list of the segments' inner names. */
module PageRegex {
  import opened Text

  /** The text put in place of every dynamic segment: `(\[\w+\])`. */
  const CaptureGroup: string := "(\\[\\w+\\])"

  /** The length of the maximal run of word characters of `s` from `k`. */
  function WordRun(s: string, k: nat): (n: nat)
    requires k <= |s|
    ensures k + n <= |s|
    decreases |s| - k
  {
    if k < |s| && IsWordChar(s[k]) then 1 + WordRun(s, k + 1) else 0
  }

  /** The run is made of word characters and is maximal. */
  lemma {:induction false} WordRunFacts(s: string, k: nat)
    requires k <= |s|
    ensures forall j :: k <= j < k + WordRun(s, k) ==> IsWordChar(s[j])
    ensures k + WordRun(s, k) == |s| || !IsWordChar(s[k + WordRun(s, k)])
    decreases |s| - k
  {
    if k < |s| && IsWordChar(s[k]) {
      WordRunFacts(s, k + 1);
    }
  }

  /** A run read inside the slice s[a..b] is the run of `s`, unless the
      slice cuts it short. */
  lemma {:induction false} WordRunSlice(s: string, a: nat, b: nat, k: nat)
    requires a + k <= b <= |s|
    ensures a + k + WordRun(s[a..b], k) < b ==> WordRun(s[a..b], k) == WordRun(s, a + k)
    ensures b == |s| ==> WordRun(s[a..b], k) == WordRun(s, a + k)
    decreases b - a - k
  {
    if a + k < b {
      assert s[a..b][k] == s[a + k];
      WordRunSlice(s, a, b, k + 1);
    }
  }

  /** A token `[\w+]` occupies s[p..p + len]. */
  predicate TokenAt(s: string, p: nat, len: nat) {
    && p + len <= |s|
    && len >= 3
    && s[p] == '['
    && s[p + len - 1] == ']'
    && forall j :: p < j < p + len - 1 ==> IsWordChar(s[j])
  }

  /** The length of the token that starts at `p`, or 0 when none does: what
      the regular expression /\[\w+\]/ matches when it is tried at `p`. */
  function TokenLen(s: string, p: nat): (len: nat)
    ensures len > 0 ==> p + len <= |s| && len >= 3
  {
    if p < |s| && s[p] == '[' then
      var n := WordRun(s, p + 1);
      if n >= 1 && p + 1 + n < |s| && s[p + 1 + n] == ']' then n + 2 else 0
    else 0
  }

  /** TokenLen finds tokens only ... */
  lemma TokenLenSound(s: string, p: nat)
    requires TokenLen(s, p) > 0
    ensures TokenAt(s, p, TokenLen(s, p))
  {
    WordRunFacts(s, p + 1);
  }

  /** ... and every token, with its one possible length. */
  lemma TokenLenComplete(s: string, p: nat, len: nat)
    requires TokenAt(s, p, len)
    ensures TokenLen(s, p) == len
  {
    WordRunFacts(s, p + 1);
  }

  /** Tokens are found the same way in a suffix as in the whole name. */
  lemma TokenLenShift(s: string, i: nat, q: nat)
    requires i + q <= |s|
    ensures TokenLen(s[i..], q) == TokenLen(s, i + q)
  {
    if i + q < |s| {
      assert s[i..][q] == s[i + q];
      assert s[i..|s|] == s[i..];
      WordRunSlice(s, i, |s|, q + 1);
      var n := WordRun(s, i + q + 1);
      if i + q + 1 + n < |s| {
        assert s[i..][q + 1 + n] == s[i + q + 1 + n];
      }
    }
  }

  /** No token starts strictly inside another one. */
  lemma NoTokenInside(s: string, p: nat)
    requires TokenLen(s, p) > 0
    ensures forall q :: p < q < p + TokenLen(s, p) ==> TokenLen(s, q) == 0
  {
    WordRunFacts(s, p + 1);
    forall q | p < q < p + TokenLen(s, p) ensures TokenLen(s, q) == 0 {
      assert s[q] != '[';
    }
  }

  /** What String.prototype.match reports: no match, or the index and the
      length of the matched text. */
  datatype Match = NoMatch | Match(index: nat, length: nat)

  /** The leftmost token at or after `from`: `s.slice(from).match(/\[\w+\]/)`,
      with the index counted in `s`. */
  function FindToken(s: string, from: nat): (m: Match)
    requires from <= |s|
    ensures m.Match? ==> from <= m.index && m.index + m.length <= |s| && m.length >= 3
    decreases |s| - from
  {
    if from == |s| then NoMatch
    else if TokenLen(s, from) > 0 then Match(from, TokenLen(s, from))
    else FindToken(s, from + 1)
  }

  /** FindToken reports a token, and the leftmost one; it reports none only
      when no token starts at or after `from`. */
  lemma {:induction false} FindTokenLeftmost(s: string, from: nat)
    requires from <= |s|
    ensures FindToken(s, from).Match? ==> TokenLen(s, FindToken(s, from).index) == FindToken(s, from).length
    ensures forall q :: from <= q < (if FindToken(s, from).Match? then FindToken(s, from).index else |s|)
              ==> TokenLen(s, q) == 0
    decreases |s| - from
  {
    if from < |s| && TokenLen(s, from) == 0 {
      FindTokenLeftmost(s, from + 1);
    }
  }

  /** What a reported match tells: a token of that length starts at the
      reported index, and none starts between `from` and it. */
  lemma {:induction false} FoundToken(s: string, from: nat, p: nat, len: nat)
    requires from <= |s| && FindToken(s, from) == Match(p, len)
    ensures 0 < len == TokenLen(s, p)
    ensures forall q :: from <= q < p ==> TokenLen(s, q) == 0
  {
    FindTokenLeftmost(s, from);
  }

  /** Searching the suffix s[i..] finds the same token, shifted. */
  lemma {:induction false} FindTokenShift(s: string, i: nat, k: nat)
    requires i + k <= |s|
    ensures FindToken(s[i..], k)
         == if FindToken(s, i + k).Match? then Match(FindToken(s, i + k).index - i, FindToken(s, i + k).length)
            else NoMatch
    decreases |s| - i - k
  {
    if i + k < |s| {
      TokenLenShift(s, i, k);
      if TokenLen(s, i + k) == 0 {
        FindTokenShift(s, i, k + 1);
      }
    }
  }

  /** The leftmost token of the rest `s[i..]`, located in `s`. */
  lemma FindInRest(s: string, i: nat, rest: string)
    requires i <= |s| && rest == s[i..]
    ensures FindToken(rest, 0).Match? ==>
      FindToken(s, i) == Match(i + FindToken(rest, 0).index, FindToken(rest, 0).length)
    ensures FindToken(rest, 0).NoMatch? ==> FindToken(s, i) == NoMatch
  {
    FindTokenShift(s, i, 0);
  }

  /** Reference for the pattern text, read position by position: `s[p..]`
      with every token replaced by the capture group. */
  function ReplaceFrom(s: string, p: nat): string
    requires p <= |s|
    decreases |s| - p
  {
    if p == |s| then ""
    else if TokenLen(s, p) > 0 then CaptureGroup + ReplaceFrom(s, p + TokenLen(s, p))
    else [s[p]] + ReplaceFrom(s, p + 1)
  }

  /** Reference for the parameters: the inner name of the token at every
      position of `s[p..]` where one starts, left to right. */
  function TokenNamesFrom(s: string, p: nat): seq<string>
    requires p <= |s|
    decreases |s| - p
  {
    if p == |s| then []
    else if TokenLen(s, p) > 0 then [s[p + 1..p + TokenLen(s, p) - 1]] + TokenNamesFrom(s, p + 1)
    else TokenNamesFrom(s, p + 1)
  }

  function ReplaceTokens(name: string): string {
    ReplaceFrom(name, 0)
  }

  function TokenNames(name: string): seq<string> {
    TokenNamesFrom(name, 0)
  }

  /** Positions where no token starts are copied as they are. */
  lemma {:induction false} SkipText(s: string, a: nat, b: nat)
    requires a <= b <= |s|
    requires forall q :: a <= q < b ==> TokenLen(s, q) == 0
    ensures ReplaceFrom(s, a) == s[a..b] + ReplaceFrom(s, b)
    decreases b - a
  {
    if a < b {
      SkipText(s, a + 1, b);
      assert s[a..b] == [s[a]] + s[a + 1..b];
      AppendAssoc([s[a]], s[a + 1..b], ReplaceFrom(s, b));
    } else {
      assert s[a..b] == [];
      AppendEmpty(ReplaceFrom(s, b));
    }
  }

  /** A token is replaced by the capture group. */
  lemma ReplaceAtToken(s: string, p: nat, len: nat, next: nat)
    requires 0 < len == TokenLen(s, p) && next == p + len
    ensures ReplaceFrom(s, p) == CaptureGroup + ReplaceFrom(s, next)
  {
  }

  /** Positions where no token starts contribute no name. */
  lemma {:induction false} SkipNames(s: string, a: nat, b: nat)
    requires a <= b <= |s|
    requires forall q :: a <= q < b ==> TokenLen(s, q) == 0
    ensures TokenNamesFrom(s, a) == TokenNamesFrom(s, b)
    decreases b - a
  {
    if a < b {
      SkipNames(s, a + 1, b);
    }
  }

  /** A token at `p` contributes its inner name, and the positions inside
      it none. */
  lemma {:induction false} TokenNamed(s: string, p: nat, len: nat)
    requires 0 < len == TokenLen(s, p)
    ensures TokenNamesFrom(s, p) == [s[p + 1..p + len - 1]] + TokenNamesFrom(s, p + len)
  {
    NoTokenInside(s, p);
    SkipNames(s, p + 1, p + len);
  }

  /** A page name without a dynamic segment compiles to itself, with no
      parameters. */
  lemma PlainName(name: string)
    requires forall q :: 0 <= q < |name| ==> TokenLen(name, q) == 0
    ensures ReplaceTokens(name) == name
    ensures TokenNames(name) == []
  {
    SkipText(name, 0, |name|);
    SkipNames(name, 0, |name|);
    assert name[0..|name|] == name;
    AppendEmpty(name);
  }


  /** Every parameter name is a non-empty run of word characters. */
  lemma {:induction false} NamesAreWords(s: string, p: nat)
    requires p <= |s|
    ensures forall k :: 0 <= k < |TokenNamesFrom(s, p)| ==>
              |TokenNamesFrom(s, p)[k]| > 0 &&
              forall j :: 0 <= j < |TokenNamesFrom(s, p)[k]| ==> IsWordChar(TokenNamesFrom(s, p)[k][j])
    decreases |s| - p
  {
    if p < |s| {
      NamesAreWords(s, p + 1);
      if TokenLen(s, p) > 0 {
        TokenLenSound(s, p);
        var n := s[p + 1..p + TokenLen(s, p) - 1];
        assert forall j :: 0 <= j < |n| ==> n[j] == s[p + 1 + j];
      }
    }
  }

  /** The scan has read `name` up to position `i`, having built `pattern`
      and `params`: what is left to build is exactly what the references
      give for the rest of the name. */
  predicate Scanned(name: string, i: nat, pattern: string, params: seq<string>)
    requires i <= |name|
  {
    && pattern + ReplaceFrom(name, i) == ReplaceTokens(name)
    && params + TokenNamesFrom(name, i) == TokenNames(name)
  }

  /** The pattern side of a round that meets a token. */
  lemma {:induction false} PatternRound(name: string, i: nat, pattern: string, position: nat, len: nat, next: nat)
    requires i + position <= |name| && 0 < len == TokenLen(name, i + position) && next == i + position + len
    requires forall q :: i <= q < i + position ==> TokenLen(name, q) == 0
    requires pattern + ReplaceFrom(name, i) == ReplaceTokens(name)
    ensures pattern + name[i..i + position] + CaptureGroup + ReplaceFrom(name, next) == ReplaceTokens(name)
  {
    SkipText(name, i, i + position);
    ReplaceAtToken(name, i + position, len, next);
    Chain(pattern, ReplaceFrom(name, i), name[i..i + position], ReplaceFrom(name, i + position),
          CaptureGroup, ReplaceFrom(name, next), ReplaceTokens(name));
  }

  /** The parameter side of a round that meets a token. */
  lemma {:induction false} NamesRound(name: string, i: nat, params: seq<string>, position: nat, len: nat, next: nat)
    requires i + position <= |name| && 0 < len == TokenLen(name, i + position) && next == i + position + len
    requires forall q :: i <= q < i + position ==> TokenLen(name, q) == 0
    requires params + TokenNamesFrom(name, i) == TokenNames(name)
    ensures params + [name[i + position + 1..i + position + len - 1]] + TokenNamesFrom(name, next) == TokenNames(name)
  {
    SkipNames(name, i, i + position);
    TokenNamed(name, i + position, len);
    Chain2(params, TokenNamesFrom(name, i), [name[i + position + 1..i + position + len - 1]],
           TokenNamesFrom(name, next), TokenNames(name));
  }

  /** One round of the scan that meets a token: the text up to the
      leftmost token at or after `i` is copied, the token becomes the
      capture group and its name is recorded, and the scan goes on after
      the token. */
  lemma {:induction false} TokenRound(name: string, i: nat, pattern: string, params: seq<string>, position: nat, len: nat, next: nat)
    requires i <= |name| && FindToken(name, i) == Match(i + position, len) && next == i + position + len
    requires Scanned(name, i, pattern, params)
    ensures Scanned(name, next, pattern + name[i..i + position] + CaptureGroup,
                    params + [name[i + position + 1..i + position + len - 1]])
  {
    FoundToken(name, i, i + position, len);
    PatternRound(name, i, pattern, position, len, next);
    NamesRound(name, i, params, position, len, next);
  }

  /** The last round of the scan: no token at or after `i`, so the rest of
      the name is copied as it is. */
  lemma {:induction false} LastRound(name: string, i: nat, pattern: string, params: seq<string>)
    requires i <= |name| && FindToken(name, i) == NoMatch
    requires Scanned(name, i, pattern, params)
    ensures pattern + name[i..] == ReplaceTokens(name)
    ensures params == TokenNames(name)
  {
    FindTokenLeftmost(name, i);
    SkipText(name, i, |name|);
    SkipNames(name, i, |name|);
    assert name[i..|name|] == name[i..];
    AppendEmpty(name[i..]);
    AppendEmpty(params);
  }

  /** makePageRegex: from every position, the leftmost token of the rest of
      the name is looked for; the text before it is copied, the token is
      replaced by the capture group and its inner name recorded, and the
      scan resumes right after the token. Without a further token the rest
      is copied and the scan stops. */
  method MakePageRegex(name: string) returns (pattern: string, params: seq<string>)
    ensures pattern == ReplaceTokens(name)
    ensures params == TokenNames(name)
  {
    var length := |name|;
    var matchString := "";
    params := [];
    AppendEmpty(ReplaceTokens(name));
    AppendEmpty(TokenNames(name));
    var i := 0;
    while i < length
      invariant i <= length
      invariant Scanned(name, i, matchString, params)
      decreases length - i
    {
      var str := name[i..];
      var matches := FindToken(str, 0);
      FindInRest(name, i, str);
      if matches.Match? {
        var position := matches.index;
        var len := matches.length;
        ghost var next := i + position + len;
        TokenRound(name, i, matchString, params, position, len, next);
        params := params + [name[i + position + 1..i + position + len - 1]];
        matchString := matchString + name[i..i + position];
        matchString := matchString + CaptureGroup;
        i := i + position + len - 1;
        assert i + 1 == next;
      } else {
        LastRound(name, i, matchString, params);
        matchString := matchString + str;
        break;
      }
      i := i + 1;
    }
    AppendEmpty(matchString);
    AppendEmpty(params);
    pattern := matchString;
  }
}
