/** `Simple2DTexture` (GLAbstractions/Simple2DTexture.cs): a 2-D texture loaded from an image
    file, a decoded image or raw RGBA bytes. Decoded images are uploaded one row at a time,
    bottom row first, so that the texture's row 0 holds the image's last row. */
module Textures {
  import opened Values
  import opened GL
  import opened AssetTagger

  // ---------------------------------------------------------------- calls

  function BindCalls(h: Handle, unit: nat): seq<Call> {
    [Tex(ActiveTexture(unit)), Tex(BindTexture(h))]
  }

  /** Storage for the whole image, level 0, RGBA8, no data. */
  function ReserveCall(image: Image): TextureCall {
    TexImage2D(0, Rgba8, image.width, image.height, None)
  }

  /** Iteration `i` of the row loop: source row `height - 1 - i` goes to destination row `i`,
      as one `width` by 1 rectangle at x = 0. */
  function RowCall(image: Image, i: nat): TextureCall {
    var y := image.height - 1 - i;
    TexSubImage2D(0, 0, i, image.width, 1, if 0 <= y < image.height then [image.rows[y]] else [])
  }

  /** The calls of the first `k` iterations: each row upload followed by an error check. */
  function RowCalls(image: Image, k: nat): (cs: seq<Call>)
    ensures |cs| == 2 * k
  {
    if k == 0 then [] else RowCalls(image, k - 1) + [Tex(RowCall(image, k - 1)), GetError]
  }

  /** The row calls upload every destination row once, in increasing order, each from the
      source row mirrored about the middle, and check for an error after each. */
  lemma {:induction false} RowCallsFlip(image: Image, k: nat, i: nat)
    requires i < k <= image.height
    ensures RowCalls(image, k)[2 * i] == Tex(TexSubImage2D(0, 0, i, image.width, 1, [image.rows[image.height - 1 - i]]))
    ensures RowCalls(image, k)[2 * i + 1] == GetError
  {
    if i < k - 1 {
      RowCallsFlip(image, k - 1, i);
    }
  }

  /** `SetParameters`: clamp both wrap modes, trilinear minification, linear magnification,
      mipmap levels 0 through 8, then generate the mipmaps and check for an error. */
  function ParameterCalls(): seq<Call> {
    [Tex(TexParameter(WrapS, ClampToEdge)), Tex(TexParameter(WrapT, ClampToEdge)),
     Tex(TexParameter(MinFilter, LinearMipmapLinear)), Tex(TexParameter(MagFilter, Linear)),
     Tex(TexParameter(BaseLevel, 0)), Tex(TexParameter(MaxLevel, 8)),
     Tex(GenerateMipmap), GetError]
  }

  // ---------------------------------------------------------------- the row upload

  /** The rectangle iteration `i` writes. */
  function RowWrite(image: Image, i: nat): SubImage
    requires i < image.height
  {
    SubImage(0, i, image.width, 1, [image.rows[image.height - 1 - i]])
  }

  function RowWrites(image: Image, k: nat): (ws: seq<SubImage>)
    requires k <= image.height
    ensures |ws| == k
  {
    if k == 0 then [] else RowWrites(image, k - 1) + [RowWrite(image, k - 1)]
  }

  /** The texture image after `k` rows: the reserved storage plus the first `k` row writes. */
  function Upload(image: Image, k: nat): TexImage
    requires k <= image.height
  {
    TexImage(Rgba8, image.width, image.height, None, RowWrites(image, k))
  }

  /** After `k` rows, destination row `d` holds source row `height - 1 - d` when `d < k`, and is
      still undefined otherwise. */
  lemma {:induction false} UploadTexels(image: Image, k: nat, x: int, d: int)
    requires k <= image.height && 0 <= x < image.width && 0 <= d < image.height
    ensures Texel(Upload(image, k), x, d) == if d < k then Some(image.rows[image.height - 1 - d][x]) else None
  {
    if k > 0 {
      var t := Upload(image, k);
      assert t.writes[..|t.writes| - 1] == RowWrites(image, k - 1);
      if d != k - 1 {
        UploadTexels(image, k - 1, x, d);
      }
    }
  }

  /** The whole image, upside down: texel (x, d) of the texture is pixel (x, height - 1 - d) of the
      image, which is what shaders sampling with V pointing up expect. */
  lemma UploadFlips(image: Image, x: int, d: int)
    requires 0 <= x < image.width && 0 <= d < image.height
    ensures Texel(Upload(image, image.height), x, d) == Some(image.rows[image.height - 1 - d][x])
  {
    UploadTexels(image, image.height, x, d);
  }

  /** The state after the first `k` iterations of the loop, starting from `s`: each upload is
      followed by glGetError, which clears the flag. */
  function Uploading(s: GLData, image: Image, k: nat): GLData {
    if k == 0 then s else TextureStep(Uploading(s, image, k - 1), RowCall(image, k - 1)).(error := false)
  }

  /** The first `k` error checks of the loop all pass. */
  predicate Passes(s: GLData, image: Image, k: nat) {
    k == 0 || (Passes(s, image, k - 1) && !TextureStep(Uploading(s, image, k - 1), RowCall(image, k - 1)).error)
  }

  /** One row write that passes its check appends that row to the bound texture's image. */
  lemma RowStep(s0: GLData, image: Image, i: nat)
    requires i < image.height && BoundTexture(s0) != 0
    requires var b := BoundTexture(s0);
             !TextureStep(s0.(tex := s0.tex.(images := s0.tex.images[b := Upload(image, i)])), RowCall(image, i)).error
    ensures var b := BoundTexture(s0);
            TextureStep(s0.(tex := s0.tex.(images := s0.tex.images[b := Upload(image, i)])), RowCall(image, i)).(error := false)
            == s0.(tex := s0.tex.(images := s0.tex.images[b := Upload(image, i + 1)]))
  {
    var b := BoundTexture(s0);
    var before := s0.(tex := s0.tex.(images := s0.tex.images[b := Upload(image, i)]));
    TextureClear(before, RowCall(image, i));
    assert RowWrites(image, i + 1) == RowWrites(image, i) + [RowWrite(image, i)];
  }

  /** When the reservation on `s0` and the first `k` row checks all pass, the bound texture holds
      the reserved storage with exactly the first `k` row writes, and nothing else changed. The
      first check also witnesses the reservation, since errors stick. */
  lemma {:induction false} UploadProgress(s0: GLData, image: Image, k: nat)
    requires k <= image.height
    requires var s1 := TextureStep(s0, ReserveCall(image)); Passes(s1, image, k) && (k == 0 ==> !s1.error)
    ensures BoundTexture(s0) != 0
    ensures Uploading(TextureStep(s0, ReserveCall(image)), image, k)
            == s0.(tex := s0.tex.(images := s0.tex.images[BoundTexture(s0) := Upload(image, k)]))
  {
    var s1 := TextureStep(s0, ReserveCall(image));
    if k == 0 {
      TextureClear(s0, ReserveCall(image));
    } else {
      var before := Uploading(s1, image, k - 1);
      if k == 1 {
        TextureClear(s1, RowCall(image, 0));
      }
      UploadProgress(s0, image, k - 1);
      RowStep(s0, image, k - 1);
    }
  }

  // ---------------------------------------------------------------- parameters

  /** The seven parameter and mipmap commands, before the error check. */
  function ParameterSteps(s: GLData): GLData {
    var wrapped := TextureStep(TextureStep(s, TexParameter(WrapS, ClampToEdge)), TexParameter(WrapT, ClampToEdge));
    var filtered := TextureStep(TextureStep(wrapped, TexParameter(MinFilter, LinearMipmapLinear)), TexParameter(MagFilter, Linear));
    var levelled := TextureStep(TextureStep(filtered, TexParameter(BaseLevel, 0)), TexParameter(MaxLevel, 8));
    TextureStep(levelled, GenerateMipmap)
  }

  /** The state `SetParameters` leaves behind: its error check clears the flag. */
  function Parameterized(s: GLData): GLData {
    ParameterSteps(s).(error := false)
  }

  /** When its error check passes, `SetParameters` has set all six parameters on the bound
      texture and generated its mipmaps, which needs defined storage; nothing else changed. */
  lemma ParametersEffect(s: GLData)
    requires !ParameterSteps(s).error
    ensures var t := BoundTexture(s);
            && t != 0 && t in s.tex.images && !s.error
            && Parameterized(s) == s.(tex := s.tex.(
                 params := s.tex.params[(t, WrapS) := ClampToEdge][(t, WrapT) := ClampToEdge]
                                       [(t, MinFilter) := LinearMipmapLinear][(t, MagFilter) := Linear]
                                       [(t, BaseLevel) := 0][(t, MaxLevel) := 8],
                 mipmapped := s.tex.mipmapped + {t}))
  {
    var a1 := TextureStep(s, TexParameter(WrapS, ClampToEdge));
    var a2 := TextureStep(a1, TexParameter(WrapT, ClampToEdge));
    var a3 := TextureStep(a2, TexParameter(MinFilter, LinearMipmapLinear));
    var a4 := TextureStep(a3, TexParameter(MagFilter, Linear));
    var a5 := TextureStep(a4, TexParameter(BaseLevel, 0));
    var a6 := TextureStep(a5, TexParameter(MaxLevel, 8));
    TextureClear(a6, GenerateMipmap);
    TextureClear(a5, TexParameter(MaxLevel, 8));
    TextureClear(a4, TexParameter(BaseLevel, 0));
    TextureClear(a3, TexParameter(MagFilter, Linear));
    TextureClear(a2, TexParameter(MinFilter, LinearMipmapLinear));
    TextureClear(a1, TexParameter(WrapT, ClampToEdge));
    TextureClear(s, TexParameter(WrapS, ClampToEdge));
  }

  /** The texture state `SetParameters` sets up on texture `t`. */
  function Configured(x: TextureState, t: Handle): TextureState {
    x.(params := x.params[(t, WrapS) := ClampToEdge][(t, WrapT) := ClampToEdge]
                         [(t, MinFilter) := LinearMipmapLinear][(t, MagFilter) := Linear]
                         [(t, BaseLevel) := 0][(t, MaxLevel) := 8],
       mipmapped := x.mipmapped + {t})
  }

  // ---------------------------------------------------------------- loading an image

  /** The state `LoadImageToTexture` followed by `SetParameters` leaves behind. */
  function LoadedImage(s: GLData, image: Image): GLData {
    Parameterized(Uploading(TextureStep(s, ReserveCall(image)), image, image.height))
  }

  /** Every error check of the row loop and of `SetParameters` passes. */
  predicate ImageLoads(s: GLData, image: Image) {
    var s1 := TextureStep(s, ReserveCall(image));
    Passes(s1, image, image.height) && !ParameterSteps(Uploading(s1, image, image.height)).error
  }

  /** A load whose checks all pass leaves the bound texture holding the flipped image with its
      parameters set and mipmaps generated; nothing else changed. */
  lemma LoadedImageEffect(s: GLData, image: Image)
    requires ImageLoads(s, image)
    ensures var t := BoundTexture(s);
            && t != 0
            && LoadedImage(s, image) == s.(tex := Configured(s.tex.(images := s.tex.images[t := Upload(image, image.height)]), t))
  {
    var s1 := TextureStep(s, ReserveCall(image));
    var u := Uploading(s1, image, image.height);
    ParametersEffect(u);
    UploadProgress(s, image, image.height);
  }

  // ---------------------------------------------------------------- a load that may stop

  /** How many of the first `k` row iterations run: the loop stops right after the first whose
      check fails. */
  function RowsTried(s1: GLData, image: Image, k: nat): (n: nat)
    ensures n <= k
  {
    if k == 0 || Passes(s1, image, k - 1) then k else RowsTried(s1, image, k - 1)
  }

  /** When some check among the first `m` fails, the loop stops at the first that fails. */
  lemma {:induction false} RowsTriedFirst(s1: GLData, image: Image, m: nat)
    requires !Passes(s1, image, m)
    ensures var k := RowsTried(s1, image, m);
            0 < k && Passes(s1, image, k - 1) && !Passes(s1, image, k)
  {
    if !Passes(s1, image, m - 1) {
      RowsTriedFirst(s1, image, m - 1);
    }
  }

  /** Once check `k` fails after the first `k - 1` passed, the loop has stopped at row `k`
      however many rows the image has. */
  lemma {:induction false} RowsTriedStops(s1: GLData, image: Image, k: nat, m: nat)
    requires 0 < k <= m && Passes(s1, image, k - 1) && !Passes(s1, image, k)
    ensures RowsTried(s1, image, m) == k
    decreases m
  {
    if k < m {
      PassesPrefix(s1, image, k, m - 1);
      assert !Passes(s1, image, m - 1);
      assert RowsTried(s1, image, m) == RowsTried(s1, image, m - 1);
      RowsTriedStops(s1, image, k, m - 1);
    } else {
      assert RowsTried(s1, image, m) == m;
    }
  }

  /** The state `LoadTextureFromImage` leaves on `s` whether its checks pass or not: the row
      loop stops at its first failed check, and the parameters are set only once every row
      passed. */
  function ImageTried(s: GLData, image: Image): GLData {
    var s1 := TextureStep(s, ReserveCall(image));
    if Passes(s1, image, image.height) then LoadedImage(s, image)
    else Uploading(s1, image, RowsTried(s1, image, image.height))
  }

  /** The calls it issues. */
  function ImageCalls(s: GLData, image: Image): seq<Call> {
    var s1 := TextureStep(s, ReserveCall(image));
    if Passes(s1, image, image.height) then [Tex(ReserveCall(image))] + RowCalls(image, image.height) + ParameterCalls()
    else [Tex(ReserveCall(image))] + RowCalls(image, RowsTried(s1, image, image.height))
  }

  /** A load whose row check `k` is the first to fail leaves the first `k` rows uploaded. */
  lemma ImageTriedStopped(s: GLData, image: Image, k: nat)
    requires var s1 := TextureStep(s, ReserveCall(image));
             0 < k <= image.height && Passes(s1, image, k - 1) && !Passes(s1, image, k)
    ensures var s1 := TextureStep(s, ReserveCall(image));
            && ImageTried(s, image) == Uploading(s1, image, k)
            && ImageCalls(s, image) == [Tex(ReserveCall(image))] + RowCalls(image, k)
  {
    var s1 := TextureStep(s, ReserveCall(image));
    PassesPrefix(s1, image, k, image.height);
    RowsTriedStops(s1, image, k, image.height);
  }

  /** A load whose row checks all pass goes on to set the parameters. */
  lemma ImageTriedUploaded(s: GLData, image: Image)
    requires Passes(TextureStep(s, ReserveCall(image)), image, image.height)
    ensures ImageTried(s, image) == Parameterized(Uploading(TextureStep(s, ReserveCall(image)), image, image.height))
    ensures ImageCalls(s, image) == [Tex(ReserveCall(image))] + RowCalls(image, image.height) + ParameterCalls()
  {
  }

  /** A load that does not go through stopped at the first check that failed: one of the rows,
      every earlier row having passed, or the parameters' check after all of them. */
  lemma ImageStopsAtFirstFailure(s: GLData, image: Image)
    requires !ImageLoads(s, image)
    ensures var s1 := TextureStep(s, ReserveCall(image));
            var k := RowsTried(s1, image, image.height);
            || (Passes(s1, image, image.height) && ParameterSteps(Uploading(s1, image, image.height)).error)
            || (0 < k && Passes(s1, image, k - 1) && !Passes(s1, image, k) && ImageTried(s, image) == Uploading(s1, image, k))
  {
    var s1 := TextureStep(s, ReserveCall(image));
    if !Passes(s1, image, image.height) {
      RowsTriedFirst(s1, image, image.height);
    }
  }

  lemma {:induction false} RowCallsPrefix(image: Image, k: nat, m: nat)
    requires k <= m
    ensures RowCalls(image, k) <= RowCalls(image, m)
    decreases m
  {
    if k < m {
      RowCallsPrefix(image, k, m - 1);
    }
  }

  /** Whatever happens, a load issues the beginning of the calls of a load that goes through,
      and ends with an error check. */
  lemma ImageCallsPrefix(s: GLData, image: Image)
    ensures var cs := ImageCalls(s, image);
            && cs <= [Tex(ReserveCall(image))] + RowCalls(image, image.height) + ParameterCalls()
            && cs[|cs| - 1] == GetError
  {
    var s1 := TextureStep(s, ReserveCall(image));
    var full := [Tex(ReserveCall(image))] + RowCalls(image, image.height) + ParameterCalls();
    if !Passes(s1, image, image.height) {
      var k := RowsTried(s1, image, image.height);
      RowsTriedFirst(s1, image, image.height);
      RowCallsPrefix(image, k, image.height);
      assert RowCalls(image, k) == RowCalls(image, k - 1) + [Tex(RowCall(image, k - 1)), GetError];
      assert full == [Tex(ReserveCall(image))] + RowCalls(image, image.height) + ParameterCalls();
      assert ImageCalls(s, image) == [Tex(ReserveCall(image))] + RowCalls(image, k);
      assert ImageCalls(s, image) <= full by {
        assert forall i :: 0 <= i < |ImageCalls(s, image)| ==> ImageCalls(s, image)[i] == full[i];
      }
    }
  }

  /** The row uploads and the parameters change no name. */
  lemma {:induction false} UploadingKeepsNames(s1: GLData, image: Image, k: nat)
    ensures Uploading(s1, image, k).live == s1.live && Uploading(s1, image, k).next == s1.next
  {
    if k > 0 {
      UploadingKeepsNames(s1, image, k - 1);
      TextureCallKeepsNames(Uploading(s1, image, k - 1), RowCall(image, k - 1));
    }
  }

  /** A texture command other than generating and deleting allocates and releases no name. */
  lemma TextureCallKeepsNames(s: GLData, c: TextureCall)
    requires !c.GenTexture? && !c.DeleteTexture?
    ensures TextureStep(s, c).live == s.live && TextureStep(s, c).next == s.next
  {
  }

  lemma ParametersKeepNames(s: GLData)
    ensures Parameterized(s).live == s.live && Parameterized(s).next == s.next
  {
    var a1 := TextureStep(s, TexParameter(WrapS, ClampToEdge));
    var a2 := TextureStep(a1, TexParameter(WrapT, ClampToEdge));
    var a3 := TextureStep(a2, TexParameter(MinFilter, LinearMipmapLinear));
    var a4 := TextureStep(a3, TexParameter(MagFilter, Linear));
    var a5 := TextureStep(a4, TexParameter(BaseLevel, 0));
    var a6 := TextureStep(a5, TexParameter(MaxLevel, 8));
    TextureCallKeepsNames(s, TexParameter(WrapS, ClampToEdge));
    TextureCallKeepsNames(a1, TexParameter(WrapT, ClampToEdge));
    TextureCallKeepsNames(a2, TexParameter(MinFilter, LinearMipmapLinear));
    TextureCallKeepsNames(a3, TexParameter(MagFilter, Linear));
    TextureCallKeepsNames(a4, TexParameter(BaseLevel, 0));
    TextureCallKeepsNames(a5, TexParameter(MaxLevel, 8));
    TextureCallKeepsNames(a6, GenerateMipmap);
  }

  lemma ImageTriedKeepsNames(s: GLData, image: Image)
    ensures ImageTried(s, image).live == s.live && ImageTried(s, image).next == s.next
  {
    var s1 := TextureStep(s, ReserveCall(image));
    TextureCallKeepsNames(s, ReserveCall(image));
    if Passes(s1, image, image.height) {
      UploadingKeepsNames(s1, image, image.height);
      ParametersKeepNames(Uploading(s1, image, image.height));
    } else {
      UploadingKeepsNames(s1, image, RowsTried(s1, image, image.height));
    }
  }

  /** The label the image constructor leaves: only a non-empty debug name is tagged, cut as
      `GLAssetTagger` cuts it. */
  function Labelled(s: GLData, h: Handle, debugName: Option<string>): GLData {
    if debugName.None? || debugName.value == "" then s
    else match LimitTag(debugName.value, s.driver.maxLabelLength)
      case Success(l) => s.(labels := s.labels[h := l])
      case Failure(_) => s
  }

  function LabelCalls(h: Handle, debugName: Option<string>, maxLength: int): seq<Call> {
    if debugName.None? || debugName.value == "" then []
    else TagCalls(TextureObjectKind, h, LimitTag(debugName.value, maxLength))
  }

  /** The tagging of the image constructor goes through: there is no debug name to tag, or its
      cut is a valid slice and the GL accepts the label. */
  predicate TagGoesThrough(s: GLData, h: Handle, debugName: Option<string>) {
    || debugName.None? || debugName.value == ""
    || (&& LimitTag(debugName.value, s.driver.maxLabelLength).Success?
        && var l := LimitTag(debugName.value, s.driver.maxLabelLength).value;
           !LabelStep(s, TextureObjectKind, h, |l|, l).error)
  }

  /** The state the constructor's tagging leaves whether it passes or not: nothing to tag, a
      cut that fails, or the label call followed by the error check that clears the flag. */
  function TagTried(s: GLData, h: Handle, debugName: Option<string>): GLData {
    if debugName.None? || debugName.value == "" then s
    else match LimitTag(debugName.value, s.driver.maxLabelLength)
      case Success(l) => LabelStep(s, TextureObjectKind, h, |l|, l).(error := false)
      case Failure(_) => s
  }

  /** The state `FromImage` leaves on `s` whether it goes through or not: the image is uploaded
      only once the tagging passed. */
  function ImageBuilt(s: GLData, image: Image, debugName: Option<string>): GLData {
    var selected := Selected(s, s.next);
    if TagGoesThrough(selected, s.next, debugName) then ImageTried(Labelled(selected, s.next, debugName), image)
    else TagTried(selected, s.next, debugName)
  }

  /** The calls it issues. */
  function ImageBuiltCalls(s: GLData, image: Image, debugName: Option<string>): seq<Call> {
    var selected := Selected(s, s.next);
    [Tex(GenTexture)] + BindCalls(s.next, 0) + LabelCalls(s.next, debugName, s.driver.maxLabelLength)
    + (if TagGoesThrough(selected, s.next, debugName) then ImageCalls(Labelled(selected, s.next, debugName), image) else [])
  }

  /** A tagging that fails leaves the state `TagTried` gives, and the constructor stops. */
  lemma TagRefused(s: GLData, h: Handle, name: string, r: GLData, o: Outcome)
    requires name != "" && Tagged(s, TextureObjectKind, h, LimitTag(name, s.driver.maxLabelLength), r, o) && o.Fail?
    ensures !TagGoesThrough(s, h, Some(name)) && r == TagTried(s, h, Some(name))
  {
  }

  lemma ImageBuiltRefused(s: GLData, image: Image, debugName: Option<string>)
    requires !TagGoesThrough(Selected(s, s.next), s.next, debugName)
    ensures ImageBuilt(s, image, debugName) == TagTried(Selected(s, s.next), s.next, debugName)
    ensures ImageBuiltCalls(s, image, debugName) == [Tex(GenTexture)] + BindCalls(s.next, 0) + LabelCalls(s.next, debugName, s.driver.maxLabelLength)
  {
    var cs := [Tex(GenTexture)] + BindCalls(s.next, 0) + LabelCalls(s.next, debugName, s.driver.maxLabelLength);
    assert cs + [] == cs;
  }

  lemma ImageBuiltTagged(s: GLData, image: Image, debugName: Option<string>)
    requires TagGoesThrough(Selected(s, s.next), s.next, debugName)
    ensures var labelled := Labelled(Selected(s, s.next), s.next, debugName);
            && ImageBuilt(s, image, debugName) == ImageTried(labelled, image)
            && ImageBuiltCalls(s, image, debugName)
               == [Tex(GenTexture)] + BindCalls(s.next, 0) + LabelCalls(s.next, debugName, s.driver.maxLabelLength) + ImageCalls(labelled, image)
  {
  }

  /** Generating and binding allocate exactly the new name. */
  lemma SelectedKeepsNames(s: GLData)
    ensures Selected(s, s.next).live == s.live + {s.next} && Selected(s, s.next).next == s.next + 1
  {
  }

  /** Whatever happens, the image constructor leaves its new name allocated: a constructor that
      throws does not delete the texture it generated. */
  lemma ImageBuiltKeepsName(s: GLData, image: Image, debugName: Option<string>)
    ensures ImageBuilt(s, image, debugName).live == s.live + {s.next}
    ensures ImageBuilt(s, image, debugName).next == s.next + 1
  {
    var selected := Selected(s, s.next);
    SelectedKeepsNames(s);
    LabelledKeeps(selected, s.next, debugName);
    ImageTriedKeepsNames(Labelled(selected, s.next, debugName), image);
  }

  /** The state after generating name `h` and binding it on unit 0. */
  function Selected(s: GLData, h: Handle): GLData {
    TextureStep(TextureStep(Allocate(s), ActiveTexture(0)), BindTexture(h))
  }

  /** Generating and binding, when accepted, makes the new name unit 0's texture. */
  lemma SelectedEffect(s: GLData)
    requires Accepts(s.driver, BindCalls(s.next, 0))
    ensures Selected(s, s.next) == Allocate(s).(tex := s.tex.(activeUnit := 0, units := s.tex.units[0 := s.next]))
  {
    assert BindCalls(s.next, 0)[0] !in s.driver.rejects;
    assert BindCalls(s.next, 0)[1] !in s.driver.rejects;
  }

  /** Tagging changes nothing but the labels. */
  lemma LabelledKeeps(s: GLData, h: Handle, debugName: Option<string>)
    ensures Labelled(s, h, debugName) == s.(labels := Labelled(s, h, debugName).labels)
    ensures debugName.Some? && debugName.value != "" && LimitTag(debugName.value, s.driver.maxLabelLength).Success? ==>
              Labelled(s, h, debugName).labels == s.labels[h := LimitTag(debugName.value, s.driver.maxLabelLength).value]
  {
  }

  /** A texture built from an image, when every check passes, is a fresh name bound on unit 0
      that holds the flipped image, configured, and labelled with the cut debug name. */
  lemma FromImageEffect(s: GLData, image: Image, debugName: Option<string>)
    requires WellFormed(s)
    requires ImageLoads(Labelled(Selected(s, s.next), s.next, debugName), image)
    requires Accepts(s.driver, BindCalls(s.next, 0))
    ensures var r := LoadedImage(Labelled(Selected(s, s.next), s.next, debugName), image);
            && s.next !in s.live && r.live == s.live + {s.next} && TextureOn(r, 0) == s.next
            && r.tex.images == s.tex.images[s.next := Upload(image, image.height)]
            && r.tex == Configured(r.tex.(params := s.tex.params, mipmapped := s.tex.mipmapped), s.next)
            && (debugName.Some? && debugName.value != "" && LimitTag(debugName.value, s.driver.maxLabelLength).Success? ==>
                  r.labels == s.labels[s.next := LimitTag(debugName.value, s.driver.maxLabelLength).value])
  {
    var selected := Selected(s, s.next);
    SelectedEffect(s);
    var labelled := Labelled(selected, s.next, debugName);
    LabelledKeeps(selected, s.next, debugName);
    assert BoundTexture(labelled) == s.next;
    LoadedImageEffect(labelled, image);
  }

  /** A tagging of a non-empty name that passes leaves exactly the label `Labelled` records. */
  lemma TagPasses(s: GLData, h: Handle, name: string, r: GLData, o: Outcome)
    requires name != "" && Tagged(s, TextureObjectKind, h, LimitTag(name, s.driver.maxLabelLength), r, o) && o.Pass?
    ensures r == Labelled(s, h, Some(name))
  {
  }

  /** The tagger's cut, as the image constructor uses it, keeps a debug name of at least the
      maximum label length at exactly that length; the GL refuses the label, so the constructor
      throws for every such name. */
  lemma FromImageRefusesLongNames(s: GLData, name: string)
    requires name != "" && 0 <= s.driver.maxLabelLength <= |name|
    ensures !TagGoesThrough(Selected(s, s.next), s.next, Some(name))
  {
    LimitTagRefusedAtLimit(Selected(s, s.next), TextureObjectKind, s.next, name);
  }

  // ---------------------------------------------------------------- raw data

  function RawCall(raw: seq<Byte>, width: nat, height: nat): TextureCall {
    TexImage2D(0, Rgba, width, height, Some(raw))
  }

  /** Raw data, once `SetParameters` passes, defines the bound texture's storage with the bytes
      given: texel (x, y) is the four bytes at offset 4 * (y * width + x). */
  lemma RawEffect(s: GLData, raw: seq<Byte>, width: nat, height: nat, x: nat, y: nat)
    requires !ParameterSteps(TextureStep(s, RawCall(raw, width, height))).error
    requires 4 * (y * width + x) + 4 <= |raw|
    ensures var t := BoundTexture(s);
            var r := Parameterized(TextureStep(s, RawCall(raw, width, height)));
            && t != 0 && t in r.tex.images
            && r == s.(tex := Configured(s.tex.(images := s.tex.images[t := TexImage(Rgba, width, height, Some(raw), [])]), t))
            && var i := 4 * (y * width + x);
               Texel(r.tex.images[t], x, y) == Some(Rgba32(raw[i], raw[i + 1], raw[i + 2], raw[i + 3]))
  {
    var s1 := TextureStep(s, RawCall(raw, width, height));
    ParametersEffect(s1);
    TextureClear(s, RawCall(raw, width, height));
  }

  /** One iteration of the row loop, from the state after `i` rows: the log and the state after
      it are those of `i + 1` rows, and its check passes exactly when the upload left no error. */
  lemma NextRow(s1: GLData, image: Image, i: nat, t1: seq<Call>, before: GLData, trace: seq<Call>, after: GLData)
    requires before == Uploading(s1, image, i) && Passes(s1, image, i)
    requires trace == t1 + RowCalls(image, i) + [Tex(RowCall(image, i))] + [GetError]
    requires after == TextureStep(before, RowCall(image, i)).(error := false)
    ensures trace == t1 + RowCalls(image, i + 1) && after == Uploading(s1, image, i + 1)
    ensures Passes(s1, image, i + 1) <==> !TextureStep(before, RowCall(image, i)).error
  {
  }

  lemma ParameterLog(t0: seq<Call>, trace: seq<Call>)
    requires trace == t0 + [Tex(TexParameter(WrapS, ClampToEdge))] + [Tex(TexParameter(WrapT, ClampToEdge))]
                        + [Tex(TexParameter(MinFilter, LinearMipmapLinear))] + [Tex(TexParameter(MagFilter, Linear))]
                        + [Tex(TexParameter(BaseLevel, 0))] + [Tex(TexParameter(MaxLevel, 8))]
                        + [Tex(GenerateMipmap)] + [GetError]
    ensures trace == t0 + ParameterCalls()
  {
  }

  // ---------------------------------------------------------------- loading a file

  /** A load of the image file at `path` from state `s` goes through: the file decodes, and
      every error check of the upload and of the parameters passes. */
  predicate FileLoads(s: GLData, disk: Disk, path: string) {
    LoadImage(disk, path).Success? && ImageLoads(Selected(s, s.next), LoadImage(disk, path).value)
  }

  /** The state a load of the decodable file `path` leaves when its checks pass. */
  function FileLoaded(s: GLData, disk: Disk, path: string): GLData
    requires LoadImage(disk, path).Success?
  {
    LoadedImage(Selected(s, s.next), LoadImage(disk, path).value)
  }

  /** The calls such a load issues. */
  function FileLoadCalls(s: GLData, disk: Disk, path: string): seq<Call>
    requires LoadImage(disk, path).Success?
  {
    var image := LoadImage(disk, path).value;
    [Tex(GenTexture)] + BindCalls(s.next, 0) + [Tex(ReserveCall(image))] + RowCalls(image, image.height) + ParameterCalls()
  }

  /** The state `FromFile` leaves on `s` whether the load goes through or not: a file that does
      not decode stops it right after the binding. */
  function FileTried(s: GLData, disk: Disk, path: string): GLData {
    match LoadImage(disk, path)
    case Success(image) => ImageTried(Selected(s, s.next), image)
    case Failure(_) => Selected(s, s.next)
  }

  /** The calls it issues. */
  function FileTriedCalls(s: GLData, disk: Disk, path: string): seq<Call> {
    [Tex(GenTexture)] + BindCalls(s.next, 0)
    + (match LoadImage(disk, path)
       case Success(image) => ImageCalls(Selected(s, s.next), image)
       case Failure(_) => [])
  }

  /** The error a file load that does not go through fails with: the decoder's, or the failed
      error check's. */
  function FileError(disk: Disk, path: string): Exn {
    if LoadImage(disk, path).Failure? then LoadImage(disk, path).error else GLCallFailed
  }

  /** A file that decodes is loaded as an image on the new name. */
  lemma FileTriedDecoded(s: GLData, disk: Disk, path: string)
    requires LoadImage(disk, path).Success?
    ensures var image := LoadImage(disk, path).value;
            && FileTried(s, disk, path) == ImageTried(Selected(s, s.next), image)
            && FileTriedCalls(s, disk, path) == [Tex(GenTexture)] + BindCalls(s.next, 0) + ImageCalls(Selected(s, s.next), image)
  {
  }

  /** A file that does not decode stops the load right after the binding. */
  lemma FileTriedUndecoded(s: GLData, disk: Disk, path: string)
    requires LoadImage(disk, path).Failure?
    ensures FileTried(s, disk, path) == Selected(s, s.next)
    ensures FileTriedCalls(s, disk, path) == [Tex(GenTexture)] + BindCalls(s.next, 0)
  {
    var cs := [Tex(GenTexture)] + BindCalls(s.next, 0);
    assert cs + [] == cs;
  }

  /** A load that goes through leaves the state and issues the calls of `FileLoaded` and
      `FileLoadCalls`. */
  lemma FileTriedLoads(s: GLData, disk: Disk, path: string)
    requires FileLoads(s, disk, path)
    ensures FileTried(s, disk, path) == FileLoaded(s, disk, path)
    ensures FileTriedCalls(s, disk, path) == FileLoadCalls(s, disk, path)
  {
    var image := LoadImage(disk, path).value;
    assert ImageCalls(Selected(s, s.next), image) == [Tex(ReserveCall(image))] + RowCalls(image, image.height) + ParameterCalls();
  }

  /** Whatever happens, a file load leaves its new name allocated: a constructor that throws does
      not delete the texture it generated. */
  lemma FileTriedKeepsName(s: GLData, disk: Disk, path: string)
    ensures FileTried(s, disk, path).live == s.live + {s.next} && FileTried(s, disk, path).next == s.next + 1
  {
    SelectedKeepsNames(s);
    if LoadImage(disk, path).Success? {
      ImageTriedKeepsNames(Selected(s, s.next), LoadImage(disk, path).value);
    }
  }

  /** A file load that goes through leaves a fresh name bound on unit 0 holding the flipped
      image, configured; no other texture, binding or label changes. */
  lemma FileLoadEffect(s: GLData, disk: Disk, path: string)
    requires WellFormed(s) && FileLoads(s, disk, path) && Accepts(s.driver, BindCalls(s.next, 0))
    ensures var image := LoadImage(disk, path).value;
            var r := FileLoaded(s, disk, path);
            && s.next !in s.live && r.live == s.live + {s.next} && TextureOn(r, 0) == s.next
            && r.tex.images == s.tex.images[s.next := Upload(image, image.height)]
            && r.tex == Configured(r.tex.(params := s.tex.params, mipmapped := s.tex.mipmapped), s.next)
            && r.labels == s.labels && r.buf == s.buf && r.arr == s.arr && r.prog == s.prog
  {
    var image := LoadImage(disk, path).value;
    assert Labelled(Selected(s, s.next), s.next, None) == Selected(s, s.next);
    FromImageEffect(s, image, None);
    SelectedEffect(s);
    LoadedImageEffect(Selected(s, s.next), image);
  }

  /** Once the first `m` row checks pass, so do the first `k` for any `k <= m`. */
  lemma {:induction false} PassesPrefix(s: GLData, image: Image, k: nat, m: nat)
    requires k <= m
    ensures Passes(s, image, m) ==> Passes(s, image, k)
    decreases m - k
  {
    if k < m {
      PassesPrefix(s, image, k, m - 1);
    }
  }

  // ---------------------------------------------------------------- the class

  class Simple2DTexture {
    const gl: GLState
    const handle: Handle
    const filePath: Option<string>

    constructor Wrap(gl: GLState, handle: Handle, filePath: Option<string>)
      ensures this.gl == gl && this.handle == handle && this.filePath == filePath
    {
      this.gl := gl;
      this.handle := handle;
      this.filePath := filePath;
    }

    /** `new Simple2DTexture(gl, filePath)`: generate, bind on unit 0, decode the file, upload it
        and set the parameters. */
    static method FromFile(gl: GLState, disk: Disk, path: string) returns (r: Result<Simple2DTexture>)
      requires gl.Valid()
      modifies gl
      ensures gl.Valid()
      ensures r.Success? <==> FileLoads(old(gl.state), disk, path)
      ensures r.Failure? ==> r.error == FileError(disk, path)
      ensures gl.state == FileTried(old(gl.state), disk, path) && gl.trace == old(gl.trace) + FileTriedCalls(old(gl.state), disk, path)
      ensures r.Success? ==>
                && LoadImage(disk, path).Success? && fresh(r.value) && r.value.gl == gl
                && r.value.handle == old(gl.state).next && r.value.filePath == Some(path)
                && gl.state == FileLoaded(old(gl.state), disk, path)
                && gl.trace == old(gl.trace) + FileLoadCalls(old(gl.state), disk, path)
    {
      ghost var s0, t0 := gl.state, gl.trace;
      var h := gl.Gen(Tex(GenTexture));
      var texture := new Simple2DTexture.Wrap(gl, h, Some(path));
      texture.Bind(0);
      assert gl.state == Selected(s0, h);
      ghost var t1 := gl.trace;
      Values.SeqAssociates(t0, [Tex(GenTexture)], BindCalls(h, 0));
      var loaded := LoadImage(disk, path);
      if loaded.Failure? {
        r := Failure(loaded.error);
        FileTriedUndecoded(s0, disk, path);
        return;
      }
      var o := texture.LoadTextureFromImage(loaded.value);
      FileTriedDecoded(s0, disk, path);
      Values.SeqAssociates(t0, [Tex(GenTexture)] + BindCalls(h, 0), ImageCalls(Selected(s0, h), loaded.value));
      if o.Fail? {
        r := Failure(o.error);
        return;
      }
      FileTriedLoads(s0, disk, path);
      r := Success(texture);
    }

    /** `new Simple2DTexture(gl, rawTextureData, width, height)`: generate, bind on unit 0,
        define the storage from the bytes (taking the address of the first byte throws on empty
        data) and set the parameters. */
    static method FromRawData(gl: GLState, raw: seq<Byte>, width: nat, height: nat) returns (r: Result<Simple2DTexture>)
      requires gl.Valid()
      modifies gl
      ensures gl.Valid()
      ensures r.Success? <==> raw != [] && !ParameterSteps(TextureStep(Selected(old(gl.state), old(gl.state).next), RawCall(raw, width, height))).error
      ensures r.Failure? ==> r.error == (if raw == [] then IndexOutOfRange else GLCallFailed)
      ensures var s, h := old(gl.state), old(gl.state).next;
              && gl.state == (if raw == [] then Selected(s, h) else Parameterized(TextureStep(Selected(s, h), RawCall(raw, width, height))))
              && gl.trace == old(gl.trace) + [Tex(GenTexture)] + BindCalls(h, 0)
                             + (if raw == [] then [] else [Tex(RawCall(raw, width, height))] + ParameterCalls())
      ensures r.Success? ==>
                && raw != [] && fresh(r.value) && r.value.gl == gl
                && r.value.handle == old(gl.state).next && r.value.filePath == None
                && var loaded := TextureStep(Selected(old(gl.state), r.value.handle), RawCall(raw, width, height));
                   && !ParameterSteps(loaded).error && gl.state == Parameterized(loaded)
                   && gl.trace == old(gl.trace) + [Tex(GenTexture)] + BindCalls(r.value.handle, 0) + [Tex(RawCall(raw, width, height))]
                                  + ParameterCalls()
    {
      ghost var t0 := gl.trace;
      var h := gl.Gen(Tex(GenTexture));
      var texture := new Simple2DTexture.Wrap(gl, h, None);
      texture.Bind(0);
      ghost var t1 := gl.trace;
      if raw == [] {
        r := Failure(IndexOutOfRange);
        assert t1 + [] == t1;
        return;
      }
      gl.ApplyTexture(RawCall(raw, width, height));
      var o := texture.SetParameters();
      Values.SeqAssociates(t1, [Tex(RawCall(raw, width, height))], ParameterCalls());
      if o.Fail? {
        r := Failure(o.error);
        return;
      }
      r := Success(texture);
    }

    /** `new Simple2DTexture(gl, sourceImage, debugName)`: generate, bind on unit 0, tag a
        non-empty debug name through `TagAsset`, upload the image and set the parameters. */
    static method FromImage(gl: GLState, image: Image, debugName: Option<string>) returns (r: Result<Simple2DTexture>)
      requires gl.Valid()
      modifies gl
      ensures gl.Valid()
      ensures var s, h := old(gl.state), old(gl.state).next;
              r.Success? <==> TagGoesThrough(Selected(s, h), h, debugName) && ImageLoads(Labelled(Selected(s, h), h, debugName), image)
      ensures r.Failure? ==> r.error == GLCallFailed || r.error.ArgumentOutOfRange?
      ensures gl.state == ImageBuilt(old(gl.state), image, debugName)
      ensures gl.trace == old(gl.trace) + ImageBuiltCalls(old(gl.state), image, debugName)
      ensures r.Success? ==>
                && fresh(r.value) && r.value.gl == gl
                && r.value.handle == old(gl.state).next && r.value.filePath == None
                && var h := r.value.handle;
                   var labelled := Labelled(Selected(old(gl.state), h), h, debugName);
                   && ImageLoads(labelled, image)
                   && gl.state == LoadedImage(labelled, image)
                   && gl.trace == old(gl.trace) + [Tex(GenTexture)] + BindCalls(h, 0)
                                  + LabelCalls(h, debugName, old(gl.state).driver.maxLabelLength)
                                  + [Tex(ReserveCall(image))] + RowCalls(image, image.height) + ParameterCalls()
    {
      ghost var s0, t0 := gl.state, gl.trace;
      var h := gl.Gen(Tex(GenTexture));
      var texture := new Simple2DTexture.Wrap(gl, h, None);
      texture.Bind(0);
      ghost var selected, t1 := gl.state, gl.trace;
      if debugName.Some? && debugName.value != "" {
        var tagged := TagAsset(gl, h, TextureObjectKind, debugName.value);
        if tagged.Fail? {
          r := Failure(tagged.error);
          TagRefused(selected, h, debugName.value, gl.state, tagged);
          ImageBuiltRefused(s0, image, debugName);
          return;
        }
        TagPasses(selected, h, debugName.value, gl.state, tagged);
      }
      assert gl.state == Labelled(selected, h, debugName);
      assert gl.trace == t1 + LabelCalls(h, debugName, s0.driver.maxLabelLength);
      assert TagGoesThrough(selected, h, debugName);
      ghost var front, labels := [Tex(GenTexture)] + BindCalls(h, 0), LabelCalls(h, debugName, s0.driver.maxLabelLength);
      Values.SeqAssociates(t0, [Tex(GenTexture)], BindCalls(h, 0));
      var o := texture.LoadTextureFromImage(image);
      ImageBuiltTagged(s0, image, debugName);
      Values.SeqAssociates(t0, front, labels);
      Values.SeqAssociates(t0, front + labels, ImageCalls(Labelled(selected, h, debugName), image));
      if o.Fail? {
        r := Failure(o.error);
        return;
      }
      r := Success(texture);
    }

    /** `Bind(slot)`: select the unit, then bind this texture on it. */
    method Bind(unit: nat)
      requires gl.Valid()
      modifies gl
      ensures gl.Valid()
      ensures gl.trace == old(gl.trace) + BindCalls(handle, unit)
      ensures gl.state == TextureStep(TextureStep(old(gl.state), ActiveTexture(unit)), BindTexture(handle))
    {
      ghost var t0 := gl.trace;
      gl.ApplyTexture(ActiveTexture(unit));
      gl.ApplyTexture(BindTexture(handle));
      Appended2(t0, Tex(ActiveTexture(unit)), Tex(BindTexture(handle)));
    }

    /** `Unbind()`: binds 0 on whichever unit is active. */
    method Unbind()
      requires gl.Valid()
      modifies gl
      ensures gl.Valid()
      ensures gl.trace == old(gl.trace) + [Tex(BindTexture(0))] && gl.state == TextureStep(old(gl.state), BindTexture(0))
    {
      gl.ApplyTexture(BindTexture(0));
    }

    method Dispose()
      requires gl.Valid()
      modifies gl
      ensures gl.Valid()
      ensures gl.trace == old(gl.trace) + [Tex(DeleteTexture(handle))] && gl.state == TextureStep(old(gl.state), DeleteTexture(handle))
      ensures Tex(DeleteTexture(handle)) !in old(gl.state).driver.rejects ==> gl.state.live == old(gl.state).live - {handle}
    {
      gl.ApplyTexture(DeleteTexture(handle));
    }

    /** `LoadImageToTexture` then `SetParameters`, as `LoadTextureFromFile` and the image
        constructor run them; stops at the first failed check. */
    method LoadTextureFromImage(image: Image) returns (o: Outcome)
      requires gl.Valid()
      modifies gl
      ensures gl.Valid()
      ensures o.Pass? <==> ImageLoads(old(gl.state), image)
      ensures o.Fail? ==> o.error == GLCallFailed
      ensures gl.state == ImageTried(old(gl.state), image) && gl.trace == old(gl.trace) + ImageCalls(old(gl.state), image)
      ensures o.Pass? ==> && gl.state == LoadedImage(old(gl.state), image)
                          && gl.trace == old(gl.trace) + [Tex(ReserveCall(image))] + RowCalls(image, image.height) + ParameterCalls()
    {
      ghost var s0, s1, t0 := gl.state, TextureStep(gl.state, ReserveCall(image)), gl.trace;
      o := LoadImageToTexture(image);
      if o.Fail? {
        ghost var k :| 0 < k <= image.height && Passes(s1, image, k - 1) && !Passes(s1, image, k)
                       && gl.trace == t0 + [Tex(ReserveCall(image))] + RowCalls(image, k) && gl.state == Uploading(s1, image, k);
        PassesPrefix(s1, image, k, image.height);
        ImageTriedStopped(s0, image, k);
        Values.SeqAssociates(t0, [Tex(ReserveCall(image))], RowCalls(image, k));
        return;
      }
      o := SetParameters();
      ImageTriedUploaded(s0, image);
      Values.SeqAssociates(t0, [Tex(ReserveCall(image))], RowCalls(image, image.height));
      Values.SeqAssociates(t0, [Tex(ReserveCall(image))] + RowCalls(image, image.height), ParameterCalls());
    }

    /** `LoadImageToTexture`: reserve storage, then upload the rows from the last to the first,
        checking for a GL error after each. */
    method LoadImageToTexture(image: Image) returns (o: Outcome)
      requires gl.Valid()
      modifies gl
      ensures gl.Valid()
      ensures var s1 := TextureStep(old(gl.state), ReserveCall(image));
              o.Pass? ==> && gl.trace == old(gl.trace) + [Tex(ReserveCall(image))] + RowCalls(image, image.height)
                          && gl.state == Uploading(s1, image, image.height) && Passes(s1, image, image.height)
      ensures var s1 := TextureStep(old(gl.state), ReserveCall(image));
              o.Fail? ==> && o.error == GLCallFailed
                          && exists k :: 0 < k <= image.height
                               && gl.trace == old(gl.trace) + [Tex(ReserveCall(image))] + RowCalls(image, k)
                               && gl.state == Uploading(s1, image, k) && Passes(s1, image, k - 1) && !Passes(s1, image, k)
    {
      gl.ApplyTexture(ReserveCall(image));
      ghost var s1, t1 := gl.state, gl.trace;
      var y: int := image.height - 1;
      ghost var i: nat := 0;
      while y >= 0
        invariant -1 <= y < image.height && i == image.height - 1 - y
        invariant gl.Valid()
        invariant gl.trace == t1 + RowCalls(image, i)
        invariant gl.state == Uploading(s1, image, i) && Passes(s1, image, i)
      {
        o := UploadRow(image, y, s1, t1, i);
        if o.Fail? {
          assert 0 < i + 1 <= image.height && Passes(s1, image, i) && !Passes(s1, image, i + 1);
          return;
        }
        y := y - 1;
        i := i + 1;
      }
      assert i == image.height;
      o := Pass;
    }

    /** One iteration of the row loop: source row `y` goes to destination row `height - y - 1`,
        then the error check. */
    method UploadRow(image: Image, y: nat, ghost s1: GLData, ghost t1: seq<Call>, ghost i: nat) returns (o: Outcome)
      requires gl.Valid() && y < image.height && i == image.height - 1 - y
      requires gl.trace == t1 + RowCalls(image, i) && gl.state == Uploading(s1, image, i) && Passes(s1, image, i)
      modifies gl
      ensures gl.Valid() && gl.trace == t1 + RowCalls(image, i + 1) && gl.state == Uploading(s1, image, i + 1)
      ensures o == if Passes(s1, image, i + 1) then Pass else Fail(GLCallFailed)
    {
      var yOffset := image.height - y - 1;
      var row := TexSubImage2D(0, 0, yOffset, image.width, 1, [image.rows[y]]);
      assert row == RowCall(image, i);
      ghost var before := gl.state;
      gl.ApplyTexture(row);
      o := gl.EnsureCallSucceeded();
      NextRow(s1, image, i, t1, before, gl.trace, gl.state);
    }

    method SetParameters() returns (o: Outcome)
      requires gl.Valid()
      modifies gl
      ensures gl.Valid()
      ensures gl.trace == old(gl.trace) + ParameterCalls() && gl.state == Parameterized(old(gl.state))
      ensures o == if ParameterSteps(old(gl.state)).error then Fail(GLCallFailed) else Pass
    {
      ghost var t0 := gl.trace;
      gl.ApplyTexture(TexParameter(WrapS, ClampToEdge));
      gl.ApplyTexture(TexParameter(WrapT, ClampToEdge));
      gl.ApplyTexture(TexParameter(MinFilter, LinearMipmapLinear));
      gl.ApplyTexture(TexParameter(MagFilter, Linear));
      gl.ApplyTexture(TexParameter(BaseLevel, 0));
      gl.ApplyTexture(TexParameter(MaxLevel, 8));
      gl.ApplyTexture(GenerateMipmap);
      o := gl.EnsureCallSucceeded();
      ParameterLog(t0, gl.trace);
    }
  }
}
