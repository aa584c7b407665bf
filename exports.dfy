/** The PDF export's error channel. `create_pdf` returns the rendered bytes, or on failure
    the bytes of "PDF Error: <reason>"; the note grid classifies what it got back by its
    first bytes. Rendering itself (FPDF) is foreign code; only the payload's shape is
    modelled. Byte strings are sequences of `byte`; the ASCII text of each constant is
    given beside it. */
module Exports {

  import opened Lists

  newtype byte = b: int | 0 <= b < 256

  /** b'%PDF' */
  const PdfMagic: seq<byte> := [37, 80, 68, 70]

  /** b'PDF_ERROR', the tag the grid tests for. */
  const GridErrorTag: seq<byte> := [80, 68, 70, 95, 69, 82, 82, 79, 82]

  /** b'PDF_ERROR:', the text the grid deletes from the message. */
  const GridErrorLabel: seq<byte> := GridErrorTag + [58]

  /** b'PDF Error:', the tag `create_pdf` writes. */
  const CreatePdfErrorTag: seq<byte> := [80, 68, 70, 32, 69, 114, 114, 111, 114, 58]

  /** `f"PDF Error: {str(e)}".encode('latin-1')`, given the encoded reason. */
  function CreatePdfErrorPayload(reason: seq<byte>): (r: seq<byte>)
    ensures IsPrefix(CreatePdfErrorTag, r) && r[|CreatePdfErrorTag|..] == [32] + reason
  {
    CreatePdfErrorTag + [32] + reason
  }

  /** Whatever `create_pdf` handed back: a byte string or some other object. */
  datatype PdfPayload = Bytes(data: seq<byte>) | NotBytes

  /** The four branches of the grid's PDF button. */
  datatype PdfOutcome = Download(pdf: seq<byte>) | Failed(message: seq<byte>) | InvalidFormat | UnexpectedResponse

  /** The ASCII characters `str.isspace()` holds for, and so `str.strip()` removes: tab,
      line feed, vertical tab, form feed, carriage return, the four separators 0x1C-0x1F
      and space. */
  predicate IsSpace(b: byte)
  {
    b == 32 || 9 <= b <= 13 || 28 <= b <= 31
  }

  function StripStart(s: seq<byte>): (r: seq<byte>)
    ensures |r| <= |s| && r == s[|s| - |r|..]
    ensures forall k :: 0 <= k < |s| - |r| ==> IsSpace(s[k])
    ensures r == [] || !IsSpace(r[0])
  {
    if s != [] && IsSpace(s[0]) then StripStart(s[1..]) else s
  }

  function StripEnd(s: seq<byte>): (r: seq<byte>)
    ensures |r| <= |s| && r == s[..|r|]
    ensures forall k :: |r| <= k < |s| ==> IsSpace(s[k])
    ensures r == [] || !IsSpace(r[|r| - 1])
  {
    if s != [] && IsSpace(s[|s| - 1]) then StripEnd(s[..|s| - 1]) else s
  }

  /** `.strip()`: the slice left once the whitespace at both ends is gone. */
  function Strip(s: seq<byte>): (r: seq<byte>)
    ensures var k := |s| - |StripStart(s)|;
            k + |r| <= |s| && r == s[k..k + |r|] &&
            (forall i :: 0 <= i < k ==> IsSpace(s[i])) &&
            (forall i :: k + |r| <= i < |s| ==> IsSpace(s[i]))
    ensures r == [] || (!IsSpace(r[0]) && !IsSpace(r[|r| - 1]))
  {
    StripEnd(StripStart(s))
  }

  /** `.replace(pattern, '')`: every non-overlapping occurrence, scanning left to right, is deleted. */
  function RemoveAll(s: seq<byte>, pattern: seq<byte>): (r: seq<byte>)
    requires pattern != []
    ensures |r| <= |s|
    ensures (forall i :: 0 <= i < |s| ==> s[i] != pattern[0]) ==> r == s
    decreases |s|
  {
    if s == [] then []
    else if IsPrefix(pattern, s) then RemoveAll(s[|pattern|..], pattern)
    else [s[0]] + RemoveAll(s[1..], pattern)
  }

  /** No occurrence of `pattern` starts anywhere in `s`. */
  predicate Free(s: seq<byte>, pattern: seq<byte>)
  {
    forall i :: 0 <= i < |s| ==> !IsPrefix(pattern, s[i..])
  }

  /** An occurrence at the front is deleted and the scan resumes right after it. */
  lemma RemoveAllLeading(pattern: seq<byte>, t: seq<byte>)
    requires pattern != []
    ensures RemoveAll(pattern + t, pattern) == RemoveAll(t, pattern)
  {
    assert (pattern + t)[|pattern|..] == t;
  }

  /** Bytes outside any occurrence are kept in order: with no occurrence, nothing changes. */
  lemma {:induction false} RemoveAllFree(s: seq<byte>, pattern: seq<byte>)
    requires pattern != [] && Free(s, pattern)
    ensures RemoveAll(s, pattern) == s
    decreases |s|
  {
    if s != [] {
      assert !IsPrefix(pattern, s[0..]);
      assert s[0..] == s;
      assert Free(s[1..], pattern) by {
        forall i | 0 <= i < |s[1..]|
          ensures !IsPrefix(pattern, s[1..][i..])
        {
          assert s[1..][i..] == s[i + 1..];
        }
      }
      RemoveAllFree(s[1..], pattern);
    }
  }

  /** The grid's classification of `create_pdf`'s result, as written. */
  function ClassifyPdf(payload: PdfPayload): (r: PdfOutcome)
    ensures r.UnexpectedResponse? <==> payload.NotBytes?
    ensures r.Download? <==> payload.Bytes? && IsPrefix(PdfMagic, payload.data)
    ensures r.Failed? <==> payload.Bytes? && IsPrefix(GridErrorTag, payload.data)
    ensures r.InvalidFormat? <==>
              payload.Bytes? && !IsPrefix(PdfMagic, payload.data) && !IsPrefix(GridErrorTag, payload.data)
    ensures r.Download? ==> r.pdf == payload.data
    ensures r.Failed? ==> r.message == Strip(RemoveAll(payload.data, GridErrorLabel))
  {
    match payload
    case NotBytes => UnexpectedResponse
    case Bytes(data) =>
      assert IsPrefix(PdfMagic, data) ==> data[0] == PdfMagic[0] != GridErrorTag[0];
      if IsPrefix(PdfMagic, data) then Download(data)
      else if IsPrefix(GridErrorTag, data) then Failed(Strip(RemoveAll(data, GridErrorLabel)))
      else InvalidFormat
  }

  /** A payload in the grid's own format, "PDF_ERROR: <reason>", shows the reason with the
      label and the surrounding whitespace removed, as long as the reason does not itself
      contain the label. */
  lemma GridErrorShowsReason(reason: seq<byte>)
    requires Free(reason, GridErrorLabel)
    ensures ClassifyPdf(Bytes(GridErrorLabel + [32] + reason)) == Failed(Strip(reason))
  {
    var data := GridErrorLabel + [32] + reason;
    assert !IsPrefix(PdfMagic, data) by { assert PdfMagic[0] != data[0]; }
    assert IsPrefix(GridErrorTag, data) by { assert data[..|GridErrorTag|] == GridErrorTag; }
    assert data == GridErrorLabel + ([32] + reason);
    RemoveAllLeading(GridErrorLabel, [32] + reason);
    assert Free([32] + reason, GridErrorLabel) by {
      forall i | 0 <= i < |[32] + reason|
        ensures !IsPrefix(GridErrorLabel, ([32] + reason)[i..])
      {
        if i == 0 {
          assert ([32] + reason)[0] != GridErrorLabel[0];
        } else {
          assert ([32] + reason)[i..] == reason[i - 1..];
        }
      }
    }
    RemoveAllFree([32] + reason, GridErrorLabel);
    assert StripStart([32] + reason) == StripStart(reason) by {
      assert ([32] + reason)[1..] == reason;
    }
  }

  /** The tags disagree in their fourth byte (' ' against '_'), so every error payload
      `create_pdf` produces falls through to the "invalid format" branch and its reason is
      never shown. */
  lemma CreatePdfErrorIsInvalidFormat(reason: seq<byte>)
    ensures ClassifyPdf(Bytes(CreatePdfErrorPayload(reason))) == InvalidFormat
  {
    var data := CreatePdfErrorPayload(reason);
    assert data[0] == 80 && data[3] == 32;
    assert !IsPrefix(PdfMagic, data) by { assert PdfMagic[0] != data[0]; }
    assert !IsPrefix(GridErrorTag, data) by { assert GridErrorTag[3] != data[3]; }
  }

  /** The classification with the tag `create_pdf` actually writes: the reason is shown,
      with the tag and surrounding whitespace removed. */
  function ClassifyPdfCorrected(payload: PdfPayload): (r: PdfOutcome)
    ensures r.UnexpectedResponse? <==> payload.NotBytes?
    ensures r.Download? <==> payload.Bytes? && IsPrefix(PdfMagic, payload.data)
    ensures r.Failed? <==> payload.Bytes? && IsPrefix(CreatePdfErrorTag, payload.data)
    ensures r.Failed? ==> r.message == Strip(payload.data[|CreatePdfErrorTag|..])
  {
    match payload
    case NotBytes => UnexpectedResponse
    case Bytes(data) =>
      assert IsPrefix(PdfMagic, data) ==> data[0] == PdfMagic[0] != CreatePdfErrorTag[0];
      if IsPrefix(PdfMagic, data) then Download(data)
      else if IsPrefix(CreatePdfErrorTag, data) then Failed(Strip(data[|CreatePdfErrorTag|..]))
      else InvalidFormat
  }

  /** With the corrected tag every `create_pdf` failure reaches the error branch, carrying
      its reason. */
  lemma CorrectedShowsCreatePdfError(reason: seq<byte>)
    ensures ClassifyPdfCorrected(Bytes(CreatePdfErrorPayload(reason))) == Failed(Strip(reason))
  {
    var data := CreatePdfErrorPayload(reason);
    assert !IsPrefix(PdfMagic, data) by { assert PdfMagic[0] != data[0]; }
    assert data[|CreatePdfErrorTag|..] == [32] + reason;
    assert StripStart([32] + reason) == StripStart(reason) by {
      assert ([32] + reason)[1..] == reason;
    }
  }
}
