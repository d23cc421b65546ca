/** The message composer: the typed text, the extras drawer, the choice
    between the send and the microphone button, and sending, which hands
    the trimmed text on and clears the field. */
module MessageInput {
  import opened Types
  import opened Text
  import opened Utf16

  /** The longest text the field accepts, in UTF-16 code units. */
  const MaxLength: nat := 500

  /** The send button replaces the microphone as soon as anything is typed,
      whitespace included; so it shows whenever a send would hand text on. */
  predicate ShowsSendButton(text: string)
    ensures ShowsSendButton(text) <==> Utf16Length(text) > 0
    ensures Outgoing(text).Some? ==> ShowsSendButton(text)
  {
    |text| > 0
  }

  /** What a send hands on for `text`: the trimmed text when any of it is not
      whitespace, otherwise nothing. */
  function Outgoing(text: string): (r: Option<string>)
    ensures r.Some? <==> !AllWhitespace(text)
    ensures r.Some? ==> |r.value| > 0 && |r.value| <= |text|
    ensures r.Some? ==> !IsWhitespace(r.value[0]) && !IsWhitespace(r.value[|r.value| - 1])
    ensures r.Some? ==> exists i, j ::
      0 <= i <= j <= |text| && r.value == text[i..j] && AllWhitespace(text[..i]) && AllWhitespace(text[j..])
  {
    TrimEmptyIff(text);
    TrimIsCore(text);
    var t := Trim(text);
    if t != [] then Some(t) else None
  }

  /** Sending what was sent sends the same text again. */
  lemma OutgoingStable(text: string)
    ensures Outgoing(text).Some? ==> Outgoing(Outgoing(text).value) == Outgoing(text)
  {
    TrimIdempotent(text);
  }

  /** Text made only of whitespace shows the send button, yet pressing it
      sends nothing and keeps the text. */
  lemma BlankTextSendsNothing(text: string)
    requires |text| > 0 && AllWhitespace(text)
    ensures ShowsSendButton(text) && Outgoing(text) == None
  {
  }

  /** What a length-limited field keeps of text inserted between `before`
      and `after`: the longest prefix of it that fits beside them. The text
      around the cursor is never cut. */
  function Kept(before: string, inserted: string, after: string): (kept: string)
    ensures kept <= inserted
    ensures Utf16Length(before) + Utf16Length(after) <= MaxLength ==>
      Utf16Length(before) + Utf16Length(kept) + Utf16Length(after) <= MaxLength
    ensures Utf16Length(before) + Utf16Length(inserted) + Utf16Length(after) <= MaxLength ==> kept == inserted
    ensures |kept| < |inserted| ==>
      Utf16Length(before) + Utf16Length(inserted[..|kept| + 1]) + Utf16Length(after) > MaxLength
  {
    var around := Utf16Length(before) + Utf16Length(after);
    CutToLimit(inserted, if around <= MaxLength then MaxLength - around else 0)
  }

  /** A full field refuses an insertion anywhere in it, so the text stays as
      it was rather than losing characters at its end. */
  lemma FullFieldRefusesInsertion(before: string, inserted: string, after: string)
    requires Utf16Length(before) + Utf16Length(after) == MaxLength
    ensures Kept(before, inserted, after) == []
  {
  }

  /** Typing 300 emoji (each outside the Basic Multilingual Plane) into the
      empty field keeps 250 of them: each takes two of the 500 code units. */
  lemma AstralInputKeepsHalf(t: string)
    requires |t| >= 250
    requires forall i :: 0 <= i < |t| ==> t[i] as int > 0xFFFF
    ensures Kept([], t, []) == t[..250]
  {
    var r := Kept([], t, []);
    assert forall i :: 0 <= i < |r| ==> r[i] == t[i];
    AstralLength(r);
    assert |r| <= 250;
    if |r| < 250 {
      assert false;
    }
  }

  class Composer {
    var text: string
    var showExtras: bool

    ghost predicate Valid()
      reads this
    {
      Utf16Length(text) <= MaxLength
    }

    constructor ()
      ensures Valid() && text == [] && !showExtras
    {
      text := [];
      showExtras := false;
    }

    /** An edit of the field at the cursor: `removed` (the selection, often
        empty) is replaced by `inserted`, cut to what the limit leaves room
        for. */
    method ChangeText(before: string, removed: string, inserted: string, after: string)
      requires Valid() && text == before + removed + after
      modifies this`text
      ensures Valid()
      ensures text == before + Kept(before, inserted, after) + after
    {
      Utf16Concat(before, removed);
      Utf16Concat(before + removed, after);
      var kept := Kept(before, inserted, after);
      Utf16Concat(before, kept);
      Utf16Concat(before + kept, after);
      text := before + kept + after;
    }

    /** Sends the trimmed text and clears the field when there is something
        to send; otherwise leaves the field as it was. */
    method HandleSend() returns (sent: Option<string>)
      requires Valid()
      modifies this`text
      ensures Valid()
      ensures sent == Outgoing(old(text))
      ensures sent.Some? ==> text == [] && !ShowsSendButton(text)
      ensures sent.None? ==> text == old(text)
    {
      var trimmed := Trim(text);
      if trimmed != [] {
        sent := Some(trimmed);
        text := [];
      } else {
        sent := None;
      }
    }

    method ToggleExtras()
      modifies this`showExtras
      ensures showExtras == !old(showExtras)
    {
      showExtras := !showExtras;
    }
  }
}
