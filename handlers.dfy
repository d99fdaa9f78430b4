/**
 * `agent/chat/handlers.py`: the owner identity of an update and the
 * splitting of a reply into messages Telegram accepts.
 */
module Handlers {
  import opened Common
  import opened Text

  /** Telegram rejects longer messages. */
  const TELEGRAM_MAX_MESSAGE_LEN: nat := 4096

  // ------------------------------------------------------------ owner_from_update

  /** `owner_from_update`: `str(chat.id)`; an update without a chat is a `ValueError`. */
  function OwnerFromUpdate(chatId: Option<int>): (r: Result<string, string>)
    ensures r.Success? <==> chatId.Some?
    ensures r.Success? ==> r.value != "" && PythonInt(r.value) == Some(chatId.value)
    ensures r.Success? ==> (r.value[0] == '-' <==> chatId.value < 0)
  {
    match chatId
    case None => Failure("owner_from_update called on an update with no effective_chat")
    case Some(id) =>
      PythonIntOfString(id);
      assert id >= 0 ==> IsDigit(NatToString(id)[0]);
      Success(IntToString(id))
  }

  // ------------------------------------------------------------ format_response

  /** Where one round of the loop cuts `remaining`: before the last newline of the window when it is not at index 0, else hard at the limit. */
  function CutAt(remaining: string): (k: nat)
    requires |remaining| > TELEGRAM_MAX_MESSAGE_LEN
    ensures 0 < k <= TELEGRAM_MAX_MESSAGE_LEN
  {
    var splitAt := LastIndexOf(remaining[..TELEGRAM_MAX_MESSAGE_LEN], '\n');
    if splitAt > 0 then splitAt else TELEGRAM_MAX_MESSAGE_LEN
  }

  /** What is dropped between two chunks: the newline at a newline cut, nothing at a hard cut. */
  function SepAt(remaining: string): (sep: string)
    requires |remaining| > TELEGRAM_MAX_MESSAGE_LEN
    ensures sep == "\n" || sep == ""
  {
    if LastIndexOf(remaining[..TELEGRAM_MAX_MESSAGE_LEN], '\n') > 0 then "\n" else ""
  }

  /** The text still to send after one round. */
  function Rest(remaining: string): (rest: string)
    requires |remaining| > TELEGRAM_MAX_MESSAGE_LEN
    ensures remaining == remaining[..CutAt(remaining)] + SepAt(remaining) + rest
    ensures rest != "" && |rest| < |remaining|
  {
    var k := CutAt(remaining);
    var s := SepAt(remaining);
    if s == "\n" then
      assert remaining[..k] + "\n" + remaining[k + 1..] == remaining[..k] + remaining[k..];
      remaining[k + 1..]
    else
      assert remaining[..k] + "" + remaining[k..] == remaining[..k] + remaining[k..];
      remaining[k..]
  }

  /** The chunks `format_response` produces, one cut at a time. */
  function Chunks(text: string): (cs: seq<string>)
    ensures |cs| >= 1
    decreases |text|
  {
    if |text| <= TELEGRAM_MAX_MESSAGE_LEN then [text]
    else [text[..CutAt(text)]] + Chunks(Rest(text))
  }

  /** The separators dropped between consecutive chunks. */
  function Seps(text: string): (ss: seq<string>)
    ensures |ss| == |Chunks(text)| - 1
    decreases |text|
  {
    if |text| <= TELEGRAM_MAX_MESSAGE_LEN then []
    else [SepAt(text)] + Seps(Rest(text))
  }

  /** `chunk₀ + sep₀ + chunk₁ + … + chunkₙ`. */
  function Interleave(cs: seq<string>, ss: seq<string>): string
    requires |cs| == |ss| + 1
  {
    if ss == [] then cs[0] else cs[0] + ss[0] + Interleave(cs[1..], ss[1..])
  }

  /** `format_response(text)`: cut `remaining` until it fits, then send the rest as it is. */
  method FormatResponse(text: string) returns (chunks: seq<string>)
    ensures chunks == Chunks(text)
  {
    if |text| <= TELEGRAM_MAX_MESSAGE_LEN {
      return [text];
    }
    chunks := [];
    var remaining := text;
    while |remaining| > TELEGRAM_MAX_MESSAGE_LEN
      invariant remaining != ""
      invariant chunks + Chunks(remaining) == Chunks(text)
      decreases |remaining|
    {
      ChunkStep(remaining);
      ghost var all := Chunks(remaining);
      var window := remaining[..TELEGRAM_MAX_MESSAGE_LEN];
      var splitAt := LastIndexOf(window, '\n');
      var chunk: string;
      if splitAt > 0 {
        chunk := remaining[..splitAt];
        remaining := remaining[splitAt + 1..];
      } else {
        chunk := window;
        remaining := remaining[TELEGRAM_MAX_MESSAGE_LEN..];
      }
      assert [chunk] + Chunks(remaining) == all;
      SnocAssoc(chunks, chunk, Chunks(remaining));
      chunks := chunks + [chunk];
    }
    if remaining != "" {
      chunks := chunks + [remaining];
    }
  }

  /** Regrouping the chunks so far, the new chunk and the rest, stated on its own so the loop proof needs no sequence reasoning for it. */
  lemma SnocAssoc(a: seq<string>, x: string, b: seq<string>)
    ensures a + [x] + b == a + ([x] + b)
  {
  }

  /** One round of the loop: the chunk it cuts and the text it keeps are the first chunk and the rest. */
  lemma ChunkStep(remaining: string)
    requires |remaining| > TELEGRAM_MAX_MESSAGE_LEN
    ensures var splitAt := LastIndexOf(remaining[..TELEGRAM_MAX_MESSAGE_LEN], '\n');
            && (splitAt > 0 ==> Chunks(remaining) == [remaining[..splitAt]] + Chunks(remaining[splitAt + 1..]))
            && (splitAt <= 0 ==> Chunks(remaining) == [remaining[..TELEGRAM_MAX_MESSAGE_LEN]] + Chunks(remaining[TELEGRAM_MAX_MESSAGE_LEN..]))
  {
  }

  /** A text that fits is one message, the empty text included. */
  lemma ShortTextOneChunk(text: string)
    requires |text| <= TELEGRAM_MAX_MESSAGE_LEN
    ensures Chunks(text) == [text]
    ensures Chunks("") == [""]
  {
  }

  /** Every chunk fits in a message; for a text over the limit, none is empty. */
  lemma {:induction false} ChunksFit(text: string)
    ensures forall k :: 0 <= k < |Chunks(text)| ==> |Chunks(text)[k]| <= TELEGRAM_MAX_MESSAGE_LEN
    ensures |text| > TELEGRAM_MAX_MESSAGE_LEN ==> forall k :: 0 <= k < |Chunks(text)| ==> Chunks(text)[k] != ""
    decreases |text|
  {
    if |text| > TELEGRAM_MAX_MESSAGE_LEN {
      var rest := Rest(text);
      ChunksFit(rest);
      var cs := Chunks(text);
      assert cs == [text[..CutAt(text)]] + Chunks(rest);
      forall k | 0 < k < |cs|
        ensures |cs[k]| <= TELEGRAM_MAX_MESSAGE_LEN && cs[k] != ""
      {
        assert cs[k] == Chunks(rest)[k - 1];
        if |rest| <= TELEGRAM_MAX_MESSAGE_LEN {
          assert Chunks(rest) == [rest];
        }
      }
    }
  }

  /** Putting the dropped separators back between the chunks gives the text again. */
  lemma {:induction false} ChunksReassemble(text: string)
    ensures Interleave(Chunks(text), Seps(text)) == text
    ensures forall k :: 0 <= k < |Seps(text)| ==> Seps(text)[k] == "\n" || Seps(text)[k] == ""
    decreases |text|
  {
    if |text| > TELEGRAM_MAX_MESSAGE_LEN {
      var rest := Rest(text);
      ChunksReassemble(rest);
      var cs, ss := Chunks(text), Seps(text);
      assert cs[1..] == Chunks(rest) && ss[1..] == Seps(rest);
      assert ss[0] == SepAt(text);
      forall k | 0 < k < |ss|
        ensures ss[k] == "\n" || ss[k] == ""
      {
        assert ss[k] == Seps(rest)[k - 1];
      }
    }
  }

  /** The first cut is just before the last newline of the window when that is past index 0, otherwise hard at 4096. */
  lemma FirstCut(text: string)
    requires |text| > TELEGRAM_MAX_MESSAGE_LEN
    ensures var window := text[..TELEGRAM_MAX_MESSAGE_LEN];
            var i := LastIndexOf(window, '\n');
            (i > 0 ==> Chunks(text)[0] == text[..i] && Seps(text)[0] == "\n" &&
                       forall j :: i < j < TELEGRAM_MAX_MESSAGE_LEN ==> text[j] != '\n') &&
            (i <= 0 ==> Chunks(text)[0] == window && Seps(text)[0] == "")
  {
    var window := text[..TELEGRAM_MAX_MESSAGE_LEN];
    var i := LastIndexOf(window, '\n');
    LastIndexOfSpec(window, '\n');
    assert Chunks(text)[0] == text[..CutAt(text)];
    assert Seps(text)[0] == SepAt(text);
    assert forall j :: i < j < TELEGRAM_MAX_MESSAGE_LEN ==> window[j] == text[j];
  }

  /** A text without newlines is only ever cut hard, so the chunks simply concatenate back to it. */
  lemma {:induction false} NoNewlineConcat(text: string)
    requires forall j :: 0 <= j < |text| ==> text[j] != '\n'
    ensures forall k :: 0 <= k < |Seps(text)| ==> Seps(text)[k] == ""
    decreases |text|
  {
    if |text| > TELEGRAM_MAX_MESSAGE_LEN {
      var window := text[..TELEGRAM_MAX_MESSAGE_LEN];
      assert forall j :: 0 <= j < |window| ==> window[j] != '\n' by {
        assert forall j :: 0 <= j < |window| ==> window[j] == text[j];
      }
      var rest := Rest(text);
      assert rest == text[TELEGRAM_MAX_MESSAGE_LEN..];
      assert forall j :: 0 <= j < |rest| ==> rest[j] == text[j + TELEGRAM_MAX_MESSAGE_LEN];
      NoNewlineConcat(rest);
      var ss := Seps(text);
      forall k | 0 < k < |ss|
        ensures ss[k] == ""
      {
        assert ss[k] == Seps(rest)[k - 1];
      }
    }
  }
}
