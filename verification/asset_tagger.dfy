/** Debug labels on GL objects (DebugUtils/GLAssetTagger.cs). */
module AssetTagger {
  import opened Values
  import opened GL

  /** The label the engine sends, as written: a tag longer than the driver's maximum label length
      is cut to exactly that length. C# slicing with a negative end throws, so a negative maximum
      fails for every tag longer than it. */
  function LimitTag(tag: string, maxLength: int): (r: Result<string>)
    ensures r.Failure? <==> |tag| > maxLength && maxLength < 0
    ensures r.Success? ==> |r.value| == (if |tag| <= maxLength then |tag| else maxLength)
    ensures r.Success? ==> r.value == tag[..|r.value|]
    ensures r.Failure? ==> r.error.ArgumentOutOfRange?
  {
    if |tag| > maxLength then
      if maxLength < 0 then Failure(ArgumentOutOfRange("length")) else Success(tag[..maxLength])
    else Success(tag)
  }

  /** Cutting a tag that was already cut changes nothing. */
  lemma {:induction false} LimitTagIdempotent(tag: string, maxLength: int)
    requires maxLength >= 0
    ensures LimitTag(LimitTag(tag, maxLength).value, maxLength) == LimitTag(tag, maxLength)
  {
    var l := LimitTag(tag, maxLength).value;
    assert |l| <= maxLength;
  }

  /** As written, every tag of at least `maxLength` characters yields a label the GL must refuse:
      section 20.9 of the OpenGL 4.6 core profile specification rejects a label whose length is
      MAX_LABEL_LENGTH or more. */
  lemma {:induction false} LimitTagRefusedAtLimit(s: GLData, kind: ObjectKind, handle: Handle, tag: string)
    requires 0 <= s.driver.maxLabelLength <= |tag|
    ensures var l := LimitTag(tag, s.driver.maxLabelLength).value;
            LabelStep(s, kind, handle, |l|, l).error
  {
    var l := LimitTag(tag, s.driver.maxLabelLength).value;
    assert |l| == s.driver.maxLabelLength;
  }

  /** The cut the label limit calls for: keep at most `maxLength - 1` characters, the most a label
      may hold. A maximum below 1 admits no label at all. */
  function FitTag(tag: string, maxLength: int): (r: Result<string>)
    ensures r.Failure? <==> maxLength < 1
    ensures r.Success? ==> |r.value| < maxLength && |r.value| <= |tag| && r.value == tag[..|r.value|]
    ensures r.Success? ==> (|tag| < maxLength <==> r.value == tag)
    ensures r.Failure? ==> r.error.ArgumentOutOfRange?
  {
    if maxLength < 1 then Failure(ArgumentOutOfRange("length"))
    else if |tag| < maxLength then Success(tag)
    else Success(tag[..maxLength - 1])
  }

  /** The fitted label is accepted whenever the object is live and the driver does not refuse the
      call, and it keeps as much of the tag as the limit allows. */
  lemma {:induction false} FitTagAccepted(s: GLData, kind: ObjectKind, handle: Handle, tag: string)
    requires s.driver.maxLabelLength >= 1 && handle in s.live
    requires var l := FitTag(tag, s.driver.maxLabelLength).value;
             ObjectLabel(kind, handle, |l|, l) !in s.driver.rejects
    ensures var l := FitTag(tag, s.driver.maxLabelLength).value;
            var r := LabelStep(s, kind, handle, |l|, l);
            && r == s.(labels := s.labels[handle := l])
            && |l| == (if |tag| < s.driver.maxLabelLength then |tag| else s.driver.maxLabelLength - 1)
  {
    var l := FitTag(tag, s.driver.maxLabelLength).value;
    assert |l| < s.driver.maxLabelLength;
  }

  /** The calls a tagging issues for a given cut: the query, then (when the cut succeeds) the
      label and an error check. */
  function TagCalls(kind: ObjectKind, handle: Handle, cut: Result<string>): seq<Call> {
    match cut
    case Success(l) => [GetMaxLabelLength, ObjectLabel(kind, handle, |l|, l), GetError]
    case Failure(_) => [GetMaxLabelLength]
  }

  /** The state and outcome a tagging leaves for a given cut. */
  predicate Tagged(s: GLData, kind: ObjectKind, handle: Handle, cut: Result<string>, r: GLData, o: Outcome) {
    match cut
    case Failure(e) => o == Fail(e) && r == s
    case Success(l) =>
      var labelled := LabelStep(s, kind, handle, |l|, l);
      && r == labelled.(error := false)
      && o == (if labelled.error then Fail(GLCallFailed) else Pass)
  }

  /** A tagging that passes has recorded the label it sent, and nothing else changed. */
  lemma TaggedLabels(s: GLData, kind: ObjectKind, handle: Handle, l: string, r: GLData, o: Outcome)
    requires Tagged(s, kind, handle, Success(l), r, o) && o.Pass?
    ensures r == s.(labels := s.labels[handle := l], error := false)
  {
  }

  /** `gl.TagAsset(handle, identifier, tag)` as written: label the object with the tag cut by
      `LimitTag`, then fail when the GL reports an error. */
  method TagAsset(gl: GLState, handle: Handle, kind: ObjectKind, tag: string) returns (o: Outcome)
    requires gl.Valid()
    modifies gl
    ensures gl.Valid()
    ensures var cut := LimitTag(tag, old(gl.state).driver.maxLabelLength);
            && gl.trace == old(gl.trace) + TagCalls(kind, handle, cut)
            && Tagged(old(gl.state), kind, handle, cut, gl.state, o)
  {
    ghost var t0 := gl.trace;
    var maxLength := gl.GetMaxLabelLength();
    var limited := LimitTag(tag, maxLength);
    if limited.Failure? {
      o := Fail(limited.error);
      return;
    }
    var limitedTag := limited.value;
    gl.ObjectLabel(kind, handle, |limitedTag|, limitedTag);
    o := gl.EnsureCallSucceeded();
    Appended3(t0, GetMaxLabelLength, ObjectLabel(kind, handle, |limitedTag|, limitedTag), GetError);
  }

  /** The tagging with the corrected cut `FitTag`, which is what `TagAsset` evidently intends.
      The engine itself calls `TagAsset`, cut and all. */
  method TagAssetFitted(gl: GLState, handle: Handle, kind: ObjectKind, tag: string) returns (o: Outcome)
    requires gl.Valid()
    modifies gl
    ensures gl.Valid()
    ensures var cut := FitTag(tag, old(gl.state).driver.maxLabelLength);
            && gl.trace == old(gl.trace) + TagCalls(kind, handle, cut)
            && Tagged(old(gl.state), kind, handle, cut, gl.state, o)
  {
    ghost var t0 := gl.trace;
    var maxLength := gl.GetMaxLabelLength();
    var fitted := FitTag(tag, maxLength);
    if fitted.Failure? {
      o := Fail(fitted.error);
      return;
    }
    var fittedTag := fitted.value;
    gl.ObjectLabel(kind, handle, |fittedTag|, fittedTag);
    o := gl.EnsureCallSucceeded();
    Appended3(t0, GetMaxLabelLength, ObjectLabel(kind, handle, |fittedTag|, fittedTag), GetError);
  }
}
