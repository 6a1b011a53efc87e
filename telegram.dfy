/**
 * The Telegram notifier: the alert text is cut into pieces that fit one message and the
 * pieces are posted one after the other until one of them is refused.
 */
module Telegram {
  import opened Wrappers
  import opened Text

  /** Longest piece sent in one message, kept below Telegram's limit of 4096 characters. */
  const MaxChunk := 3900

  function Min(a: int, b: int): int { if a < b then a else b }

  /** The pieces of `s`: consecutive slices of `size` characters, the last one possibly shorter. */
  function Chunks(s: string, size: nat): seq<string>
    requires size > 0
    decreases |s|
  {
    if |s| == 0 then []
    else
      var n := Min(size, |s|);
      [s[..n]] + Chunks(s[n..], size)
  }

  function Concat(parts: seq<string>): string
  {
    if |parts| == 0 then "" else parts[0] + Concat(parts[1..])
  }

  /** Putting the pieces back together gives back the text. */
  lemma {:induction false} ChunksConcat(s: string, size: nat)
    requires size > 0
    ensures Concat(Chunks(s, size)) == s
    decreases |s|
  {
    if |s| > 0 {
      var n := Min(size, |s|);
      ChunksConcat(s[n..], size);
      assert Chunks(s, size)[1..] == Chunks(s[n..], size);
      assert s[..n] + s[n..] == s;
    }
  }

  /** No piece is empty or longer than `size`, and only the last may be shorter than `size`. */
  lemma {:induction false} ChunkSizes(s: string, size: nat)
    requires size > 0
    ensures forall i :: 0 <= i < |Chunks(s, size)| ==> 0 < |Chunks(s, size)[i]| <= size
    ensures forall i :: 0 <= i < |Chunks(s, size)| - 1 ==> |Chunks(s, size)[i]| == size
    decreases |s|
  {
    if |s| > 0 {
      var n := Min(size, |s|);
      ChunkSizes(s[n..], size);
      assert forall i :: 1 <= i < |Chunks(s, size)| ==> Chunks(s, size)[i] == Chunks(s[n..], size)[i - 1];
    }
  }

  /**
   * The number of pieces is the number of characters divided by `size`, rounded up:
   * the pieces cover the text, and one piece fewer would not.
   */
  lemma {:induction false} ChunkCount(s: string, size: nat)
    requires size > 0
    ensures |s| <= |Chunks(s, size)| * size < |s| + size
    decreases |s|
  {
    if |s| > 0 {
      var n := Min(size, |s|);
      var m := |Chunks(s[n..], size)|;
      ChunkCount(s[n..], size);
      assert |Chunks(s, size)| * size == size + m * size;
    }
  }

  /** In particular, the count is `ceil(|s| / size)`; an empty text has no piece. */
  lemma ChunkCountIsCeiling(s: string, size: nat)
    requires size > 0
    ensures |Chunks(s, size)| == (|s| + size - 1) / size
    ensures |Chunks(s, size)| == 0 <==> |s| == 0
  {
    ChunkCount(s, size);
    DivideBetween(|s| + size - 1, |Chunks(s, size)|, size);
  }

  lemma DivideBetween(x: int, q: int, d: int)
    requires d > 0 && q * d <= x < q * d + d
    ensures x / d == q
  {
    var k := x / d - q;
    assert k * d == (x / d) * d - q * d;
    MulSign(k, d);
  }

  lemma MulSign(k: int, d: int)
    requires d > 0
    ensures k >= 1 ==> k * d >= d
    ensures k <= -1 ==> k * d <= -d
  {
    if k >= 1 {
      assert k * d == (k - 1) * d + d;
    } else if k <= -1 {
      assert k * d == (k + 1) * d - d;
    }
  }

  /** `chunkText`: an index loop that steps by `size` and takes the slice there, clipped at the end. */
  method ChunkText(s: string, size: nat) returns (out: seq<string>)
    requires size > 0
    ensures out == Chunks(s, size)
  {
    out := [];
    var i := 0;
    while i < |s|
      invariant out + Chunks(s[Min(i, |s|)..], size) == Chunks(s, size)
      decreases |s| - i
    {
      var end := Min(i + size, |s|);
      var n := Min(size, |s| - i);
      assert end == i + n;
      assert s[i..][..n] == s[i..end];
      assert s[i..][n..] == s[end..];
      out := out + [s[i..end]];
      i := i + size;
    }
  }

  /** What `sendTelegramMessage` resolves to; `reason` is set only when the settings are missing. */
  datatype Reply = Reply(ok: bool, reason: Option<string>)

  /** How the post of one piece went: an ok answer, any other answer, or a `fetch` that threw. */
  datatype Delivery = Delivered | Refused | Threw

  /** How the promise of `sendTelegramMessage` settles: with its value, or rejected by a throw. */
  datatype Settled = Resolved(last: Option<Reply>) | Rejected

  /**
   * `sendTelegramMessage`: with a token and a chat id, posts the pieces of `text` in order;
   * `deliver(i)` is how the post of piece `i` went. The loop stops at the first piece not
   * delivered; a refusal resolves with a failed reply, a throw rejects the promise. A resolved
   * value is the reply for the last piece posted, unset when there was nothing to post. `sent`
   * lists the pieces posted.
   */
  method SendTelegramMessage(token: Option<string>, chatId: Option<string>, text: string, deliver: nat -> Delivery)
    returns (settled: Settled, sent: seq<string>)
    ensures !(Truthy(token) && Truthy(chatId)) ==> settled == Resolved(Some(Reply(false, Some("missing-config")))) && sent == []
    ensures Truthy(token) && Truthy(chatId) ==>
      var pieces := Chunks(text, MaxChunk);
      && |sent| <= |pieces| && sent == pieces[..|sent|]
      && (forall i :: 0 <= i < |sent| - 1 ==> deliver(i) == Delivered)
      && (|sent| < |pieces| ==> 0 < |sent| && deliver(|sent| - 1) != Delivered)
      && (settled.Rejected? <==> 0 < |sent| && deliver(|sent| - 1) == Threw)
      && (settled == Resolved(None) <==> text == "")
      && (settled.Resolved? && settled.last.Some? ==>
            settled.last.value.reason.None? && (settled.last.value.ok <==> forall i :: 0 <= i < |pieces| ==> deliver(i) == Delivered))
  {
    if !(Truthy(token) && Truthy(chatId)) {
      return Resolved(Some(Reply(false, Some("missing-config")))), [];
    }
    ChunkCountIsCeiling(text, MaxChunk);
    var pieces := ChunkText(text, MaxChunk);
    var last: Option<Reply> := None;
    sent := [];
    var k := 0;
    while k < |pieces|
      invariant k <= |pieces| && sent == pieces[..k]
      invariant forall i :: 0 <= i < k ==> deliver(i) == Delivered
      invariant last.None? <==> k == 0
      invariant last.Some? ==> last == Some(Reply(true, None))
    {
      sent := sent + [pieces[k]];
      var outcome := deliver(k);
      if outcome == Threw {
        return Rejected, sent;
      }
      if outcome == Refused {
        return Resolved(Some(Reply(false, None))), sent;
      }
      last := Some(Reply(true, None));
      k := k + 1;
    }
    settled := Resolved(last);
  }
}
