/**
 * `hasPrefix` and `hasJSONPrefix` of the `init` command: does a byte buffer,
 * once its leading whitespace is dropped, start with a given prefix?
 * Whitespace is the ASCII part of Go's `unicode.IsSpace`.
 */
module JsonPrefix {

  newtype byte = x: int | 0 <= x < 256

  const OpenBrace: byte := 0x7B  // '{'

  /** Tab, line feed, vertical tab, form feed, carriage return and space. */
  predicate IsSpace(b: byte) {
    b == 0x09 || b == 0x0A || b == 0x0B || b == 0x0C || b == 0x0D || b == 0x20
  }

  predicate AllSpace(s: seq<byte>) {
    forall k :: 0 <= k < |s| ==> IsSpace(s[k])
  }

  /** The index of the first non-whitespace byte of `buf` at or after `i`, or
      `|buf|` when there is none. */
  function FirstNonSpace(buf: seq<byte>, i: nat): (k: nat)
    requires i <= |buf|
    ensures i <= k <= |buf|
    ensures forall j :: i <= j < k ==> IsSpace(buf[j])
    ensures k == |buf| || !IsSpace(buf[k])
    decreases |buf| - i
  {
    if i < |buf| && IsSpace(buf[i]) then FirstNonSpace(buf, i + 1) else i
  }

  /** `bytes.TrimLeftFunc(buf, unicode.IsSpace)`: the buffer from its first
      non-whitespace byte on. */
  function TrimLeftSpace(buf: seq<byte>): (trimmed: seq<byte>)
    ensures |trimmed| <= |buf|
    ensures forall j :: 0 <= j < |trimmed| ==> trimmed[j] == buf[|buf| - |trimmed| + j]
    ensures forall j :: 0 <= j < |buf| - |trimmed| ==> IsSpace(buf[j])
    ensures trimmed == [] || !IsSpace(trimmed[0])
  {
    buf[FirstNonSpace(buf, 0)..]
  }

  /** `hasPrefix`: the first non-whitespace bytes of `buf` are `prefix`. A
      match needs at least `|prefix|` bytes, and a prefix that starts with
      whitespace never matches. */
  function HasPrefix(buf: seq<byte>, prefix: seq<byte>): (r: bool)
    ensures r ==> |prefix| <= |buf|
    ensures r && prefix != [] ==> !IsSpace(prefix[0])
  {
    var trimmed := TrimLeftSpace(buf);
    |prefix| <= |trimmed| && trimmed[..|prefix|] == prefix
  }

  /** `hasJSONPrefix`: the first non-whitespace byte of `buf` is an open brace. */
  function HasJsonPrefix(buf: seq<byte>): (r: bool)
    ensures r <==> TrimLeftSpace(buf) != [] && TrimLeftSpace(buf)[0] == OpenBrace
  {
    HasPrefix(buf, [OpenBrace])
  }

  /** The first non-whitespace byte is at `k` when every byte before `k` is
      whitespace and the byte at `k` (if any) is not. */
  lemma FirstNonSpaceAt(buf: seq<byte>, k: nat)
    requires k <= |buf|
    requires forall j :: 0 <= j < k ==> IsSpace(buf[j])
    requires k == |buf| || !IsSpace(buf[k])
    ensures FirstNonSpace(buf, 0) == k
  {
  }

  /** Once `k` is the index of the first non-whitespace byte (or the length of
      an all-whitespace buffer), `buf` has `prefix` exactly when `prefix`
      starts at `k`. */
  lemma HasPrefixAt(buf: seq<byte>, prefix: seq<byte>, k: nat)
    requires k <= |buf| && AllSpace(buf[..k])
    requires k == |buf| || !IsSpace(buf[k])
    ensures TrimLeftSpace(buf) == buf[k..]
    ensures HasPrefix(buf, prefix) <==> k + |prefix| <= |buf| && buf[k..k + |prefix|] == prefix
  {
    forall j | 0 <= j < k
      ensures IsSpace(buf[j])
    {
      assert buf[..k][j] == buf[j];
    }
    FirstNonSpaceAt(buf, k);
    if k + |prefix| <= |buf| {
      assert buf[k..][..|prefix|] == buf[k..k + |prefix|];
    }
  }

  /** Leading whitespace never changes the answer of `hasPrefix`. */
  lemma LeadingWhitespaceIrrelevant(ws: seq<byte>, buf: seq<byte>, prefix: seq<byte>)
    requires AllSpace(ws)
    ensures TrimLeftSpace(ws + buf) == TrimLeftSpace(buf)
    ensures HasPrefix(ws + buf, prefix) == HasPrefix(buf, prefix)
  {
    var whole := ws + buf;
    var first := FirstNonSpace(buf, 0);
    forall j | 0 <= j < |ws| + first
      ensures IsSpace(whole[j])
    {
      if j < |ws| {
        assert whole[j] == ws[j];
      } else {
        assert whole[j] == buf[j - |ws|];
      }
    }
    if first < |buf| {
      assert whole[|ws| + first] == buf[first];
    }
    FirstNonSpaceAt(whole, |ws| + first);
    assert whole[|ws| + first..] == buf[first..];
  }

  /** An empty or all-whitespace buffer never looks like JSON. */
  lemma BlankBufferIsNotJson(buf: seq<byte>)
    requires AllSpace(buf)
    ensures TrimLeftSpace(buf) == []
    ensures !HasJsonPrefix(buf)
  {
    var first := FirstNonSpace(buf, 0);
    assert AllSpace(buf[first..]);
  }
}
