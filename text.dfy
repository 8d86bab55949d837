/** The byte transform of `writetext` (Python 2): newlines are removed and
    every remaining byte is lowered by 32, the offset between ASCII and the
    controller's built-in character codes. Storing a negative value into the
    `bytearray` raises ValueError, so any byte below 32 other than a newline
    makes the whole call fail. */
module Text {
  import opened Encoding
  import opened Outcomes

  const NEWLINE: Byte := 10
  /** ASCII space, character code 0 of the built-in font. */
  const CODE_BASE: Byte := 32

  /** `text.replace("\n", "")`. */
  function StripNewlines(text: seq<Byte>): (r: seq<Byte>)
    ensures |r| <= |text|
    ensures NEWLINE !in r
    ensures multiset(r) == multiset(text)[NEWLINE := 0]
  {
    if text == [] then []
    else
      assert text == [text[0]] + text[1..];
      (if text[0] == NEWLINE then [] else [text[0]]) + StripNewlines(text[1..])
  }

  /** Newline removal works piecewise, so the surviving bytes keep their
      order: stripping a concatenation strips each part. */
  lemma {:induction false} StripNewlinesAppend(a: seq<Byte>, b: seq<Byte>)
    ensures StripNewlines(a + b) == StripNewlines(a) + StripNewlines(b)
  {
    if a == [] {
      assert a + b == b;
    } else {
      assert (a + b)[0] == a[0] && (a + b)[1..] == a[1..] + b;
      StripNewlinesAppend(a[1..], b);
    }
  }

  /** The text minus its newlines: exactly the newlines are dropped. */
  lemma StripNewlinesLength(text: seq<Byte>)
    ensures |StripNewlines(text)| == |text| - multiset(text)[NEWLINE]
  {
    assert |multiset(StripNewlines(text))| == |StripNewlines(text)|;
    assert |multiset(text)| == |text|;
  }

  /** Removing newlines keeps exactly the other bytes. */
  lemma {:induction false} StripNewlinesMembers(text: seq<Byte>, b: Byte)
    ensures b in StripNewlines(text) <==> b in text && b != NEWLINE
  {
    if text != [] {
      StripNewlinesMembers(text[1..], b);
      assert text == [text[0]] + text[1..];
    }
  }

  /** Text that holds no newline is left as it is. */
  lemma {:induction false} StripNewlinesIdentity(text: seq<Byte>)
    requires NEWLINE !in text
    ensures StripNewlines(text) == text
  {
    if text != [] {
      assert NEWLINE !in text[1..];
      StripNewlinesIdentity(text[1..]);
    }
  }

  /** Whether every byte can be lowered by 32 without leaving 0..255. */
  predicate AllPrintable(s: seq<Byte>)
  {
    forall i :: 0 <= i < |s| ==> s[i] >= CODE_BASE
  }

  /** The character codes `writetext` sends for `text`, or ValueError. */
  function TextCodes(text: seq<Byte>): (r: Result<seq<Byte>>)
    ensures r.Err? ==> r.error == ValueError
    ensures r.Ok? ==> |r.value| == |text| - multiset(text)[NEWLINE]
    ensures r.Ok? ==> forall i :: 0 <= i < |r.value| ==> r.value[i] < 256 - CODE_BASE
  {
    StripNewlinesLength(text);
    var s := StripNewlines(text);
    if AllPrintable(s) then Ok(seq(|s|, i requires 0 <= i < |s| => s[i] - CODE_BASE))
    else Err(ValueError)
  }

  /** `writetext` fails exactly when the text holds a byte below 32 that is
      not a newline. */
  lemma TextCodesFails(text: seq<Byte>)
    ensures TextCodes(text).Err? <==>
      exists i :: 0 <= i < |text| && text[i] != NEWLINE && text[i] < CODE_BASE
  {
    var s := StripNewlines(text);
    if TextCodes(text).Err? {
      var j :| 0 <= j < |s| && s[j] < CODE_BASE;
      StripNewlinesMembers(text, s[j]);
    } else {
      forall i | 0 <= i < |text| && text[i] != NEWLINE ensures text[i] >= CODE_BASE {
        StripNewlinesMembers(text, text[i]);
      }
    }
  }

  /** The codes map back to the text: adding 32 to each code gives the text
      with its newlines removed. */
  lemma TextCodesInverse(text: seq<Byte>)
    requires TextCodes(text).Ok?
    ensures |TextCodes(text).value| == |StripNewlines(text)|
    ensures forall i :: 0 <= i < |TextCodes(text).value| ==>
      TextCodes(text).value[i] + CODE_BASE == StripNewlines(text)[i]
  {
  }

  /** The loop of `writetext` over its `bytearray`: each byte is lowered by 32
      in place, and the first byte that would become negative raises. */
  method EncodeText(text: seq<Byte>) returns (r: Result<seq<Byte>>)
    ensures r == TextCodes(text)
  {
    var s := StripNewlines(text);
    var buf := new Byte[|s|](i requires 0 <= i < |s| => s[i]);
    var i := 0;
    while i < buf.Length
      invariant 0 <= i <= buf.Length == |s|
      invariant forall k :: 0 <= k < i ==> s[k] >= CODE_BASE && buf[k] == s[k] - CODE_BASE
      invariant forall k :: i <= k < buf.Length ==> buf[k] == s[k]
    {
      var v := buf[i] - CODE_BASE;
      if v < 0 {
        assert !AllPrintable(s);
        return Err(ValueError);
      }
      buf[i] := v;
      i := i + 1;
    }
    assert AllPrintable(s);
    assert buf[..] == seq(|s|, k requires 0 <= k < |s| => s[k] - CODE_BASE);
    r := Ok(buf[..]);
  }
}
