/**
 * What the presentation session promises across its actions: when the save
 * path is set, which error wins, what each action changes and what it leaves
 * alone, and how sequences of calls behave.
 */
module PptCreatorProperties {
  import opened Optional
  import opened Paths
  import opened Slides
  import opened PptCreator

  /** A call naming `action` with every other argument left out. */
  function Bare(action: string): Call {
    Call(action, None, None, None, None, None, None, None)
  }

  /** The save path as it stands once `execute` has handled `file_path`, before dispatch. */
  function PathBeforeDispatch(root: string, s: State, c: Call): Option<string> {
    if Given(c.filePath) then Some(ResolveDocPath(root, c.filePath.value)) else s.path
  }

  /**
   * A given `file_path` is resolved and stored for every action, unknown
   * ones included; `create` keeps it, and only `save` changes it further,
   * by fixing the extension.
   */
  lemma PathStoredBeforeDispatch(root: string, layouts: nat -> seq<Shape>, s: State, c: Call, env: Env)
    requires IsAbs(root) && Given(c.filePath) && env.canMakeDirs
    ensures var resolved := ResolveDocPath(root, c.filePath.value);
      Step(root, layouts, s, c, env).0.path
        == if c.action == "save" && s.presentation.Some? then Some(WithPptx(resolved)) else Some(resolved)
  {
  }

  /** An action outside the five is an error naming it; only the pre-dispatch path update happens. */
  lemma UnknownActionOnlyStoresPath(root: string, layouts: nat -> seq<Shape>, s: State, c: Call, env: Env)
    requires c.action !in {"create", "add_slide", "add_text", "add_image", "save"}
    requires env.canMakeDirs || !Given(c.filePath)
    ensures Step(root, layouts, s, c, env) == (s.(path := PathBeforeDispatch(root, s, c)), Error(UnknownAction(c.action)))
  {
  }

  /**
   * `create` always starts an empty presentation and keeps the saved files;
   * `create` itself never changes the path stored before dispatch (a given
   * `file_path` has already replaced an earlier path by then).
   */
  lemma CreateStep(root: string, layouts: nat -> seq<Shape>, s: State, c: Call, env: Env)
    requires IsAbs(root) && c.action == "create"
    requires env.canMakeDirs || !Given(c.filePath)
    ensures var (next, r) := Step(root, layouts, s, c, env);
      && r == Output(Created)
      && next.presentation == Some([])
      && next.saved == s.saved
      && next.path == PathBeforeDispatch(root, s, c)
  {
  }

  /** With no open presentation, the four other actions fail alike and change nothing beyond the stored path. */
  lemma NoPresentationGuard(root: string, layouts: nat -> seq<Shape>, s: State, c: Call, env: Env)
    requires s.presentation.None?
    requires c.action in {"add_slide", "add_text", "add_image", "save"}
    requires env.canMakeDirs || !Given(c.filePath)
    ensures Step(root, layouts, s, c, env) == (s.(path := PathBeforeDispatch(root, s, c)), Error(NoActivePresentation))
  {
  }

  /** A missing, empty or unknown slide type is rejected by name, and nothing changes. */
  lemma AddSlideRejectsType(layouts: nat -> seq<Shape>, s: State, slideType: Option<string>, title: Option<string>)
    requires s.presentation.Some?
    requires !Given(slideType) || slideType.value !in SlideTypes
    ensures AddSlideSpec(layouts, s, slideType, title) == (s, Error(InvalidSlideType(slideType)))
  {
  }

  /**
   * A successful `add_slide` appends exactly one slide, made from the layout
   * the table gives, leaves earlier slides alone, and reports the new slide's
   * index; its title placeholder receives the title only when a title is given.
   */
  lemma AddSlideAppends(layouts: nat -> seq<Shape>, s: State, slideType: Option<string>, title: Option<string>)
    requires AddSlideSpec(layouts, s, slideType, title).1.Output?
    ensures s.presentation.Some? && Given(slideType) && slideType.value in SlideTypes
    ensures var (next, r) := AddSlideSpec(layouts, s, slideType, title);
      var slides := s.presentation.value;
      var layout := LayoutIndex(slideType.value).value;
      && next.path == s.path && next.saved == s.saved
      && next.presentation.Some?
      && |next.presentation.value| == |slides| + 1
      && next.presentation.value[..|slides|] == slides
      && r == Output(SlideAdded(slideType.value, |next.presentation.value| - 1))
      && next.presentation.value[|slides|].layout == layout
      && |next.presentation.value[|slides|].shapes| == |layouts(layout)|
      && (forall m | 0 <= m < |layouts(layout)| ::
            var shape := next.presentation.value[|slides|].shapes[m];
            if Given(title) && FirstMatch(layouts(layout), PlaceholderIdx(0)) == Some(m) && layouts(layout)[m].holdsText
            then shape == layouts(layout)[m].(text := title.value)
            else shape == layouts(layout)[m])
  {
  }

  /**
   * `add_text` checks in order: an open presentation, a slide index in range,
   * non-empty content. Any failure leaves the session as it was.
   */
  lemma AddTextGuards(s: State, slideIndex: Option<int>, placeholderIndex: Option<int>, content: Option<string>)
    ensures var (next, r) := AddTextSpec(s, slideIndex, placeholderIndex, content);
      && (s.presentation.None? ==> r == Error(NoActivePresentation))
      && (s.presentation.Some? && !SlideIndexOk(s.presentation.value, slideIndex) ==> r == Error(InvalidSlideIndex(slideIndex)))
      && (s.presentation.Some? && SlideIndexOk(s.presentation.value, slideIndex) && !Given(content) ==> r == Error(NoContent))
      && (r.Error? ==> next == s)
  {
  }

  /** The shape `add_text` writes: the first placeholder with the requested idx, or else the first text-capable shape. */
  ghost predicate TextTarget(shapes: seq<Shape>, j: int, placeholderIndex: Option<int>) {
    var want := if placeholderIndex.Some? then PlaceholderIdx(placeholderIndex.value) else TextFrame;
    && 0 <= j < |shapes|
    && Matches(shapes[j], want)
    && (forall m | 0 <= m < j :: !Matches(shapes[m], want))
  }

  /**
   * Once past its guards, `add_text` writes the content into exactly one
   * shape, its target, and changes no other shape and no other slide; with no
   * target it reports which lookup failed.
   */
  lemma AddTextWritesOneShape(s: State, slideIndex: Option<int>, placeholderIndex: Option<int>, content: Option<string>)
    requires s.presentation.Some? && SlideIndexOk(s.presentation.value, slideIndex) && Given(content)
    ensures var (next, r) := AddTextSpec(s, slideIndex, placeholderIndex, content);
      var slides := s.presentation.value;
      var i := slideIndex.value;
      var shapes := slides[i].shapes;
      && (r.Output? ==>
            && next.path == s.path && next.saved == s.saved && next.presentation.Some?
            && |next.presentation.value| == |slides|
            && (forall k | 0 <= k < |slides| && k != i :: next.presentation.value[k] == slides[k])
            && next.presentation.value[i].layout == slides[i].layout
            && |next.presentation.value[i].shapes| == |shapes|
            && exists j ::
                 && TextTarget(shapes, j, placeholderIndex)
                 && next.presentation.value[i].shapes[j] == (if shapes[j].holdsText then shapes[j].(text := content.value) else shapes[j])
                 && forall m | 0 <= m < |shapes| && m != j :: next.presentation.value[i].shapes[m] == shapes[m])
      && ((forall j :: !TextTarget(shapes, j, placeholderIndex)) ==>
            r == Error(if placeholderIndex.Some? then PlaceholderNotFound(placeholderIndex.value, i) else NoSuitablePlaceholder(i)))
  {
  }

  /**
   * Conversely, once past its guards `add_text` reports success whenever its
   * target exists; when the requested placeholder has no text frame the
   * assignment lands on a plain attribute and the session is unchanged.
   */
  lemma AddTextSucceeds(s: State, slideIndex: Option<int>, placeholderIndex: Option<int>, content: Option<string>, j: int)
    requires s.presentation.Some? && SlideIndexOk(s.presentation.value, slideIndex) && Given(content)
    requires TextTarget(s.presentation.value[slideIndex.value].shapes, j, placeholderIndex)
    ensures var (next, r) := AddTextSpec(s, slideIndex, placeholderIndex, content);
      var shape := s.presentation.value[slideIndex.value].shapes[j];
      && r == Output(TextAdded(placeholderIndex, slideIndex.value))
      && (shape.holdsText ==> next.presentation.value[slideIndex.value].shapes[j].text == content.value)
      && (!shape.holdsText ==> next == s)
  {
  }

  /**
   * `add_image` checks an open presentation, the slide index and a non-empty
   * image path before it looks at the file; a file that does not exist is
   * reported by its resolved path. Any failure leaves the session as it was.
   */
  lemma AddImageGuards(root: string, s: State, slideIndex: Option<int>, imagePath: Option<string>, env: Env)
    ensures var (next, r) := AddImageSpec(root, s, slideIndex, imagePath, env);
      && (s.presentation.None? ==> r == Error(NoActivePresentation))
      && (s.presentation.Some? && !SlideIndexOk(s.presentation.value, slideIndex) ==> r == Error(InvalidSlideIndex(slideIndex)))
      && (s.presentation.Some? && SlideIndexOk(s.presentation.value, slideIndex) && !Given(imagePath) ==> r == Error(NoImagePath))
      && (s.presentation.Some? && SlideIndexOk(s.presentation.value, slideIndex) && Given(imagePath)
          && ResolveImagePath(root, imagePath.value) !in env.existing
          ==> r == Error(ImageNotFound(ResolveImagePath(root, imagePath.value))))
      && (r.Error? ==> next == s)
  {
  }

  /**
   * A successful `add_image` found the resolved file, inserted its picture
   * without failure, and appended exactly one picture of it to the chosen
   * slide; no other slide changes.
   */
  lemma AddImageAppendsPicture(root: string, s: State, slideIndex: Option<int>, imagePath: Option<string>, env: Env)
    requires AddImageSpec(root, s, slideIndex, imagePath, env).1.Output?
    ensures s.presentation.Some? && SlideIndexOk(s.presentation.value, slideIndex) && Given(imagePath) && env.canInsertPicture
    ensures var (next, r) := AddImageSpec(root, s, slideIndex, imagePath, env);
      var slides := s.presentation.value;
      var i := slideIndex.value;
      var file := ResolveImagePath(root, imagePath.value);
      && file in env.existing
      && (IsAbs(imagePath.value) ==> file == imagePath.value)
      && r == Output(ImageAdded(i))
      && next.path == s.path && next.saved == s.saved && next.presentation.Some?
      && |next.presentation.value| == |slides|
      && (forall k | 0 <= k < |slides| && k != i :: next.presentation.value[k] == slides[k])
      && next.presentation.value[i] == slides[i].(shapes := slides[i].shapes + [Picture(file)])
  {
  }

  /**
   * `save` needs an open presentation and a stored path; it then writes the
   * presentation under the path with the extension fixed, and reports that path.
   */
  lemma SaveWrites(s: State, env: Env)
    ensures var (next, r) := SaveSpec(s, env);
      && (s.presentation.None? ==> r == Error(NoActivePresentation) && next == s)
      && (s.presentation.Some? && !Given(s.path) ==> r == Error(NoFilePath) && next == s)
      && (r.Output? ==>
            && next.path == Some(WithPptx(s.path.value))
            && EndsWith(next.path.value, Extension)
            && StartsWith(next.path.value, s.path.value)
            && r == Output(Saved(next.path.value))
            && next.presentation == s.presentation
            && next.saved == s.saved[next.path.value := s.presentation.value])
  {
  }

  /** Conversely, `add_slide` succeeds on an open presentation with a known slide type, whatever the title. */
  lemma AddSlideSucceeds(layouts: nat -> seq<Shape>, s: State, slideType: Option<string>, title: Option<string>)
    requires s.presentation.Some? && Given(slideType) && slideType.value in SlideTypes
    ensures AddSlideSpec(layouts, s, slideType, title).1 == Output(SlideAdded(slideType.value, |s.presentation.value|))
  {
  }

  /**
   * A title placeholder without a text frame takes the title as a plain
   * attribute: success is reported, yet the slide is appended untitled.
   */
  lemma AddSlideTitleWithoutTextFrameIgnored(layouts: nat -> seq<Shape>, s: State, slideType: Option<string>, title: Option<string>)
    requires s.presentation.Some? && Given(slideType) && slideType.value in SlideTypes && Given(title)
    requires var shapes := layouts(LayoutIndex(slideType.value).value);
      var titleAt := FirstMatch(shapes, PlaceholderIdx(0));
      titleAt.Some? && !shapes[titleAt.value].holdsText
    ensures var (next, r) := AddSlideSpec(layouts, s, slideType, title);
      var layout := LayoutIndex(slideType.value).value;
      && r == Output(SlideAdded(slideType.value, |s.presentation.value|))
      && next == s.(presentation := Some(s.presentation.value + [Slide(layout, layouts(layout))]))
  {
  }

  /** Conversely, `add_image` succeeds once its guards pass, the resolved file exists and the picture can be inserted. */
  lemma AddImageSucceeds(root: string, s: State, slideIndex: Option<int>, imagePath: Option<string>, env: Env)
    requires s.presentation.Some? && SlideIndexOk(s.presentation.value, slideIndex) && Given(imagePath)
    requires ResolveImagePath(root, imagePath.value) in env.existing && env.canInsertPicture
    ensures AddImageSpec(root, s, slideIndex, imagePath, env).1 == Output(ImageAdded(slideIndex.value))
  {
  }

  /** A picture insertion that raises is reported as such, and the slide is left as it was. */
  lemma InsertFailure(root: string, s: State, slideIndex: Option<int>, imagePath: Option<string>, env: Env)
    requires s.presentation.Some? && SlideIndexOk(s.presentation.value, slideIndex) && Given(imagePath)
    requires ResolveImagePath(root, imagePath.value) in env.existing && !env.canInsertPicture
    ensures AddImageSpec(root, s, slideIndex, imagePath, env) == (s, Error(ImageInsertFailed))
  {
  }

  /**
   * When the directory for a given `file_path` cannot be created, `execute`
   * returns the catch-all error before storing the path or dispatching.
   */
  lemma MakeDirsFailure(root: string, layouts: nat -> seq<Shape>, s: State, c: Call, env: Env)
    requires Given(c.filePath) && !env.canMakeDirs
    ensures Step(root, layouts, s, c, env) == (s, Error(Unexpected))
  {
  }

  /** Conversely, `save` succeeds with an open presentation, a stored path and a writable file. */
  lemma SaveSucceeds(s: State, env: Env)
    requires s.presentation.Some? && Given(s.path) && env.canWrite
    ensures SaveSpec(s, env).1 == Output(Saved(WithPptx(s.path.value)))
  {
  }

  /**
   * A failed write still leaves the extended path stored, because the
   * extension is fixed before the write is attempted; nothing is saved.
   */
  lemma SaveFailKeepsExtendedPath(s: State, env: Env)
    requires s.presentation.Some? && Given(s.path) && !env.canWrite
    ensures SaveSpec(s, env) == (s.(path := Some(WithPptx(s.path.value))), Error(SaveFailed))
  {
  }

  /** Saving twice in a row is the same as saving once: the extension never stacks and the same file is rewritten. */
  lemma SaveTwice(s: State, env: Env)
    ensures var (s1, r1) := SaveSpec(s, env);
      var (s2, r2) := SaveSpec(s1, env);
      && s2.path == s1.path
      && (r1.Output? ==> s2 == s1 && r2 == r1)
  {
  }

  /**
   * An absolute document path such as "/etc/deck.pptx" lands directly under
   * the workspace root: "<root>/deck.pptx". The path here has at least two
   * slashes; a path directly below "/", such as "/deck.pptx", is covered by
   * `AbsoluteDocPathIsItsBasename`.
   */
  lemma AbsoluteDocPathRerooted(root: string, d: string, n: string)
    requires IsAbs(root) && root[|root| - 1] != '/'
    requires '/' !in n
    ensures ResolveDocPath(root, "/" + d + "/" + n) == root + "/" + n
  {
    BasenameAfterSlash("/" + d, n);
    assert !IsAbs(n) by { if n != [] { assert n[0] in n; } }
  }

  /** Unlike document paths, an absolute image path is used unchanged, outside the root if it says so. */
  lemma AbsoluteImagePathKept(root: string)
    ensures ResolveImagePath(root, "/etc/logo.png") == "/etc/logo.png"
  {
  }

  /** On a fresh presentation the first two slides are reported as indices 0 and 1. */
  lemma FirstSlidesNumbered(root: string, layouts: nat -> seq<Shape>, s: State, env: Env)
    ensures var (s1, r1) := Step(root, layouts, s, Bare("create"), env);
      var add := Bare("add_slide").(slideType := Some("content"));
      var (s2, r2) := Step(root, layouts, s1, add, env);
      var (s3, r3) := Step(root, layouts, s2, add, env);
      && r1 == Output(Created)
      && r2 == Output(SlideAdded("content", 0))
      && r3 == Output(SlideAdded("content", 1))
  {
  }

  /** Creating with file_path "deck" and then saving writes "<root>/deck.pptx". */
  lemma CreateThenSaveAddsExtension(root: string, layouts: nat -> seq<Shape>, s: State, env: Env)
    requires IsAbs(root) && root[|root| - 1] != '/'
    requires env.canMakeDirs && env.canWrite
    ensures var (s1, r1) := Step(root, layouts, s, Bare("create").(filePath := Some("deck")), env);
      var (s2, r2) := Step(root, layouts, s1, Bare("save"), env);
      && r2 == Output(Saved(root + "/deck.pptx"))
      && s2.saved[root + "/deck.pptx"] == []
  {
    var c := Bare("create").(filePath := Some("deck"));
    var (s1, r1) := Step(root, layouts, s, c, env);
    assert s1.path == Some(root + "/deck") by {
      PathStoredBeforeDispatch(root, layouts, s, c, env);
      assert ResolveDocPath(root, "deck") == Join(root, "deck") == root + "/" + "deck";
      assert root + "/" + "deck" == root + "/deck";
    }
    assert !EndsWith(root + "/deck", Extension) by {
      var p := root + "/deck";
      assert p[|p| - 1] == 'k';
    }
    assert root + "/deck" + Extension == root + "/deck.pptx";
  }

  /**
   * "Under the root" is only a string prefix: `..` segments are kept as they
   * are, so a relative "../x" names a file beside the root, and "/etc/.."
   * re-roots to "<root>/..", the root's parent; a relative image path such
   * as "../x.png" is looked for beside the root in the same way.
   */
  lemma DotDotLeavesRoot(root: string)
    requires IsAbs(root) && root[|root| - 1] != '/'
    ensures ResolveDocPath(root, "../x") == root + "/../x"
    ensures ResolveDocPath(root, "/etc/..") == root + "/.."
    ensures ResolveImagePath(root, "../x.png") == root + "/../x.png"
  {
  }
}
