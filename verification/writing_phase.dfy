/** The writing editor's own logic (components/WritingPhase.tsx): word count, submit gating, the handwriting image. */
module WritingPhase {
  import opened Wrappers
  import opened Strings
  import opened TextRuns

  /** `content.length`: JavaScript counts UTF-16 code units, two for a character beyond U+FFFF. */
  function Utf16Length(s: string): (n: nat)
    ensures |s| <= n <= 2 * |s|
  {
    if s == [] then 0 else (if s[0] as int < 0x1_0000 then 1 else 2) + Utf16Length(s[1..])
  }

  /** `content.trim().split(/\s+/).filter(w => w.length > 0).length`. */
  function WordCount(content: string): (n: nat)
    ensures n == Runs(content)
  {
    SplitCountsRuns(Trim(content));
    RunsOfTrim(content);
    NonEmptyCount(SplitOnSpaces(Trim(content)))
  }

  /** Text has no words exactly when it is empty or all whitespace. */
  lemma {:induction false} NoRunsIffBlank(s: string)
    ensures Runs(s) == 0 <==> AllSpace(s)
    decreases |s|
  {
    if s != [] {
      NoRunsIffBlank(s[1..]);
      if IsSpace(s[0]) {
        assert AllSpace(s) <==> AllSpace(s[1..]) by {
          if AllSpace(s[1..]) {
            forall k | 0 <= k < |s| ensures IsSpace(s[k]) {
              if k > 0 { assert s[k] == s[1..][k - 1]; }
            }
          }
        }
      }
    }
  }

  lemma WordCountZeroIffBlank(content: string)
    ensures WordCount(content) == 0 <==> AllSpace(content)
  {
    NoRunsIffBlank(content);
  }

  /** The editor's state: the text and the captured image, if any (a data URL). */
  datatype Editor = Editor(content: string, image: Option<string>)

  const ImagePlaceholder: string := "Handwritten Essay Uploaded"

  /** The submit button is disabled when the text is shorter than 5 code units or a request is running. */
  predicate SubmitDisabled(e: Editor, loading: bool) {
    Utf16Length(e.content) < 5 || loading
  }

  /** `capturedImage` is truthy. */
  predicate HasImage(e: Editor) {
    e.image.Some? && e.image.value != ""
  }

  /** The FileReader's `onloadend`: keep the image and put the placeholder in the text. */
  function SelectImage(e: Editor, dataUrl: string): (r: Editor)
    ensures r.image == Some(dataUrl) && r.content == ImagePlaceholder
    ensures !SubmitDisabled(r, false)
  {
    assert Utf16Length(ImagePlaceholder) >= |ImagePlaceholder| == 26;
    Editor(ImagePlaceholder, Some(dataUrl))
  }

  /** `clearImage`: no image and no text, so submit is disabled again. */
  function ClearImage(e: Editor): (r: Editor)
    ensures r.image.None? && r.content == ""
    ensures SubmitDisabled(r, false)
  {
    Editor("", None)
  }

  /** The arguments of `onSubmit(content, capturedImage || undefined)`. */
  function SubmitArguments(e: Editor): (r: (string, Option<string>))
    ensures r.0 == e.content
    ensures r.1.Some? <==> HasImage(e)
    ensures r.1.Some? ==> r.1 == e.image
  {
    (e.content, if HasImage(e) then e.image else None)
  }

  /** The word counter is shown only while there is no image. */
  function WordCounter(e: Editor): (r: Option<nat>)
    ensures r.Some? <==> !HasImage(e)
    ensures r.Some? ==> r.value == Runs(e.content)
  {
    if HasImage(e) then None else Some(WordCount(e.content))
  }
}
