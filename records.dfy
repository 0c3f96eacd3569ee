/** Values shared by the chat screen, the history store and the history page:
    one chat message, one saved conversation, and the JavaScript string
    trimming that decides whether an input is blank. */
module Records {

  datatype Option<+T> = None | Some(value: T)

  /** `msg.type`: 'user' or 'ai'. */
  datatype Role = User | Ai

  /** The two verdicts the thumbs buttons pass: 'up' and 'down'. */
  datatype Verdict = Up | Down

  /** `msg.likes`: a user message is built without the field (undefined),
      an AI message starts at null, and a thumbs click stores a verdict. */
  datatype Likes = Undefined | Null | Given(verdict: Verdict)

  /** One turn of the conversation. `id` is a clock reading in milliseconds,
      `timestamp` the locale hour:minute label shown beside it. */
  datatype Message = Message(role: Role, text: string, id: int, timestamp: string, likes: Likes)

  /** One saved conversation. `rating` is None when a loaded record has no
      rating field; records built by the chat screen always carry one. */
  datatype ChatRecord = ChatRecord(id: int, date: string, messages: seq<Message>,
                                   rating: Option<int>, feedback: string)

  /** The characters `String.prototype.trim` removes: the ECMAScript
      WhiteSpace code points (tab, vertical tab, form feed, space, no-break
      space, byte order mark and the Unicode space separators) and the
      LineTerminator code points (line feed, carriage return, line and
      paragraph separators). */
  predicate IsWhitespace(c: char) {
    var n := c as int;
    n == 0x09 || n == 0x0A || n == 0x0B || n == 0x0C || n == 0x0D || n == 0x20
    || n == 0xA0 || n == 0x1680 || (0x2000 <= n <= 0x200A)
    || n == 0x2028 || n == 0x2029 || n == 0x202F || n == 0x205F
    || n == 0x3000 || n == 0xFEFF
  }

  /** Every character of `s` is whitespace (the empty string included). */
  predicate Blank(s: string) {
    forall i :: 0 <= i < |s| ==> IsWhitespace(s[i])
  }

  /** Drops the longest whitespace prefix. */
  function TrimStart(s: string): (r: string)
    ensures |r| <= |s| && r == s[|s| - |r|..]
    ensures forall i :: 0 <= i < |s| - |r| ==> IsWhitespace(s[i])
    ensures r == [] || !IsWhitespace(r[0])
  {
    if s != [] && IsWhitespace(s[0]) then TrimStart(s[1..]) else s
  }

  /** Drops the longest whitespace suffix. */
  function TrimEnd(s: string): (r: string)
    ensures |r| <= |s| && r == s[..|r|]
    ensures forall i :: |r| <= i < |s| ==> IsWhitespace(s[i])
    ensures r == [] || !IsWhitespace(r[|r| - 1])
  {
    if s != [] && IsWhitespace(s[|s| - 1]) then TrimEnd(s[..|s| - 1]) else s
  }

  /** `s.trim()`: both ends stripped of whitespace. */
  function Trim(s: string): (r: string)
    ensures r == [] || (!IsWhitespace(r[0]) && !IsWhitespace(r[|r| - 1]))
  {
    TrimEnd(TrimStart(s))
  }

  /** `trim()` is the empty string, i.e. falsy, exactly for blank input. */
  lemma TrimEmptyIffBlank(s: string)
    ensures Trim(s) == [] <==> Blank(s)
  {
  }

  /** Trimming keeps a contiguous run of `s`, in order, and what it cuts
      off on either side is whitespace. */
  lemma TrimIsSlice(s: string)
    ensures exists lo, hi :: 0 <= lo <= hi <= |s| && Trim(s) == s[lo..hi]
                             && Blank(s[..lo]) && Blank(s[hi..])
  {
    var t := TrimStart(s);
    var r := TrimEnd(t);
    var lo := |s| - |t|;
    var hi := lo + |r|;
    assert t == s[lo..];
    assert r == t[..|r|];
    assert s[lo..][..|r|] == s[lo..hi];
    assert Blank(s[..lo]);
    forall i | 0 <= i < |s| - hi ensures IsWhitespace(s[hi..][i]) {
      assert s[hi..][i] == t[|r| + i];
    }
    assert 0 <= lo <= hi <= |s| && Trim(s) == s[lo..hi] && Blank(s[..lo]) && Blank(s[hi..]);
  }
}
