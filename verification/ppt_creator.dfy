/**
 * The `ppt_creator` tool: one presentation session holding at most one open
 * presentation and the path it will be saved to, driven by `execute` calls
 * that name an action. The pure functions below define each step on a
 * `State` value; the `Session` class performs the same steps in place and is
 * proved to agree with them.
 */
module PptCreator {
  import opened Optional
  import opened Paths
  import opened Slides

  /** The session fields: the open presentation, its save path, and the files saved so far. */
  datatype State = State(presentation: Option<seq<Slide>>, path: Option<string>, saved: map<string, seq<Slide>>)

  /** The keyword arguments of one `execute` call. */
  datatype Call = Call(
    action: string,
    filePath: Option<string>,
    slideType: Option<string>,
    title: Option<string>,
    content: Option<string>,
    slideIndex: Option<int>,
    placeholderIndex: Option<int>,
    imagePath: Option<string>)

  /**
   * What the surroundings decide: which files exist, and whether creating the
   * save directory, inserting a picture and writing the file succeed.
   */
  datatype Env = Env(existing: set<string>, canMakeDirs: bool, canInsertPicture: bool, canWrite: bool)

  datatype Message =
    | Created
    | SlideAdded(slideType: string, index: nat)
    | TextAdded(placeholder: Option<int>, slide: nat)
    | ImageAdded(slide: nat)
    | Saved(file: string)

  datatype Failure =
    | NoActivePresentation
    | InvalidSlideType(slideType: Option<string>)
    | InvalidSlideIndex(index: Option<int>)
    | NoContent
    | PlaceholderNotFound(placeholder: int, slide: nat)
    | NoSuitablePlaceholder(slide: nat)
    | NoImagePath
    | ImageNotFound(file: string)
    | ImageInsertFailed
    | NoFilePath
    | SaveFailed
    | UnknownAction(action: string)
    /** An exception caught by `execute`'s catch-all handler. */
    | Unexpected

  /** The tool's result: an output message or an error, never both. */
  datatype ToolResult = Output(message: Message) | Error(failure: Failure)

  /** Python truthiness of an optional string: present and non-empty. */
  predicate Given(o: Option<string>) {
    o.Some? && o.value != ""
  }

  /** The slide-index guard of `add_text` and `add_image`. */
  predicate SlideIndexOk(slides: seq<Slide>, i: Option<int>) {
    i.Some? && 0 <= i.value < |slides|
  }

  /**
   * The session invariant: every path it records starts with the workspace
   * root string (a textual prefix; `..` segments are kept), and saved files
   * carry the extension.
   */
  ghost predicate Inv(root: string, s: State) {
    && IsAbs(root)
    && (s.path.Some? ==> StartsWith(s.path.value, root))
    && (forall f | f in s.saved :: StartsWith(f, root) && EndsWith(f, Extension))
  }

  /** `_create_presentation`: a fresh, empty presentation; the path is set only if none is set yet. */
  function CreateSpec(s: State, filePath: Option<string>): (State, ToolResult) {
    var path := if Given(filePath) then (if Given(s.path) then s.path else filePath) else s.path;
    (s.(presentation := Some([]), path := path), Output(Created))
  }

  /** `_add_slide`. */
  function AddSlideSpec(layouts: nat -> seq<Shape>, s: State, slideType: Option<string>, title: Option<string>): (State, ToolResult) {
    if s.presentation.None? then (s, Error(NoActivePresentation))
    else if !Given(slideType) || LayoutIndex(slideType.value).None? then (s, Error(InvalidSlideType(slideType)))
    else
      var layout := LayoutIndex(slideType.value).value;
      var slide := Slide(layout, layouts(layout));
      var slides := s.presentation.value;
      var titleAt := FirstMatch(slide.shapes, PlaceholderIdx(0));
      // a title placeholder without a text frame takes the assignment as a plain
      // Python attribute: nothing raises and the slide keeps no title
      var added :=
        if Given(title) && titleAt.Some? && slide.shapes[titleAt.value].holdsText
        then WithText(slide, titleAt.value, title.value)
        else slide;
      (s.(presentation := Some(slides + [added])), Output(SlideAdded(slideType.value, |slides|)))
  }

  /** `_add_text`. */
  function AddTextSpec(s: State, slideIndex: Option<int>, placeholderIndex: Option<int>, content: Option<string>): (State, ToolResult) {
    if s.presentation.None? then (s, Error(NoActivePresentation))
    else if !SlideIndexOk(s.presentation.value, slideIndex) then (s, Error(InvalidSlideIndex(slideIndex)))
    else if !Given(content) then (s, Error(NoContent))
    else
      var slides := s.presentation.value;
      var i: nat := slideIndex.value;
      var want := if placeholderIndex.Some? then PlaceholderIdx(placeholderIndex.value) else TextFrame;
      match FirstMatch(slides[i].shapes, want)
      case None =>
        (s, Error(if placeholderIndex.Some? then PlaceholderNotFound(placeholderIndex.value, i) else NoSuitablePlaceholder(i)))
      case Some(j) =>
        if slides[i].shapes[j].holdsText then
          (s.(presentation := Some(slides[i := WithText(slides[i], j, content.value)])), Output(TextAdded(placeholderIndex, i)))
        else
          // a placeholder without a text frame takes `text` as a plain attribute:
          // success is reported and the document is unchanged
          (s, Output(TextAdded(placeholderIndex, i)))
  }

  /** `_add_image`. */
  function AddImageSpec(root: string, s: State, slideIndex: Option<int>, imagePath: Option<string>, env: Env): (State, ToolResult) {
    if s.presentation.None? then (s, Error(NoActivePresentation))
    else if !SlideIndexOk(s.presentation.value, slideIndex) then (s, Error(InvalidSlideIndex(slideIndex)))
    else if !Given(imagePath) then (s, Error(NoImagePath))
    else
      var file := ResolveImagePath(root, imagePath.value);
      if file !in env.existing then (s, Error(ImageNotFound(file)))
      else if !env.canInsertPicture then (s, Error(ImageInsertFailed))
      else
        var slides := s.presentation.value;
        var i: nat := slideIndex.value;
        (s.(presentation := Some(slides[i := slides[i].(shapes := slides[i].shapes + [Picture(file)])])),
         Output(ImageAdded(i)))
  }

  /** `_save_presentation`: the extension is fixed on the stored path before the write is attempted. */
  function SaveSpec(s: State, env: Env): (State, ToolResult) {
    if s.presentation.None? then (s, Error(NoActivePresentation))
    else if !Given(s.path) then (s, Error(NoFilePath))
    else
      var file := WithPptx(s.path.value);
      var s' := s.(path := Some(file));
      if !env.canWrite then (s', Error(SaveFailed))
      else (s'.(saved := s.saved[file := s.presentation.value]), Output(Saved(file)))
  }

  /** The dispatch on `action`. */
  function Dispatch(root: string, layouts: nat -> seq<Shape>, s: State, c: Call, env: Env): (State, ToolResult) {
    match c.action
    case "create" => CreateSpec(s, c.filePath)
    case "add_slide" => AddSlideSpec(layouts, s, c.slideType, c.title)
    case "add_text" => AddTextSpec(s, c.slideIndex, c.placeholderIndex, c.content)
    case "add_image" => AddImageSpec(root, s, c.slideIndex, c.imagePath, env)
    case "save" => SaveSpec(s, env)
    case _ => (s, Error(UnknownAction(c.action)))
  }

  /** `execute`: a given `file_path` is resolved and stored before the action is dispatched. */
  function Step(root: string, layouts: nat -> seq<Shape>, s: State, c: Call, env: Env): (State, ToolResult) {
    if Given(c.filePath) && !env.canMakeDirs then (s, Error(Unexpected))
    else
      var s' := if Given(c.filePath) then s.(path := Some(ResolveDocPath(root, c.filePath.value))) else s;
      Dispatch(root, layouts, s', c, env)
  }

  /** Every step keeps the session invariant. */
  lemma StepKeepsInv(root: string, layouts: nat -> seq<Shape>, s: State, c: Call, env: Env)
    requires Inv(root, s)
    ensures Inv(root, Step(root, layouts, s, c, env).0)
  {
    if Given(c.filePath) && env.canMakeDirs {
      var s' := s.(path := Some(ResolveDocPath(root, c.filePath.value)));
      assert Given(s'.path);
      DispatchKeepsInv(root, layouts, s', c, env);
    } else if !Given(c.filePath) {
      DispatchKeepsInv(root, layouts, s, c, env);
    }
  }

  /** Dispatch keeps the invariant once a given `file_path` has been stored. */
  lemma DispatchKeepsInv(root: string, layouts: nat -> seq<Shape>, s: State, c: Call, env: Env)
    requires Inv(root, s)
    requires Given(c.filePath) ==> Given(s.path)
    ensures Inv(root, Dispatch(root, layouts, s, c, env).0)
  {
    match c.action
    case "create" =>
    case "add_slide" =>
    case "add_text" =>
    case "add_image" =>
    case "save" => SaveKeepsInv(root, s, env);
    case _ =>
  }

  lemma SaveKeepsInv(root: string, s: State, env: Env)
    requires Inv(root, s)
    ensures Inv(root, SaveSpec(s, env).0)
  {
  }

  /** The tool object: the session state lives in its fields and each action updates them in place. */
  class Session {
    /** `WORKSPACE_ROOT`. */
    const root: string
    /** The shapes a new slide starts with, by layout number (the library's default template). */
    const layouts: nat -> seq<Shape>
    /** `_current_presentation`. */
    var presentation: Option<seq<Slide>>
    /** `_current_file_path`. */
    var path: Option<string>
    /** The presentations written by `save`, by file. */
    var saved: map<string, seq<Slide>>

    function Model(): State
      reads this
    {
      State(presentation, path, saved)
    }

    ghost predicate Valid()
      reads this
    {
      Inv(root, Model())
    }

    constructor (root: string, layouts: nat -> seq<Shape>)
      requires IsAbs(root)
      ensures Valid() && this.root == root && this.layouts == layouts
      ensures Model() == State(None, None, map[])
    {
      this.root := root;
      this.layouts := layouts;
      presentation := None;
      path := None;
      saved := map[];
    }

    method Execute(c: Call, env: Env) returns (r: ToolResult)
      requires Valid()
      modifies this
      ensures Valid()
      ensures (Model(), r) == Step(root, layouts, old(Model()), c, env)
    {
      StepKeepsInv(root, layouts, Model(), c, env);
      if Given(c.filePath) {
        if !env.canMakeDirs {
          return Error(Unexpected);
        }
        path := Some(ResolveDocPath(root, c.filePath.value));
      }
      match c.action
      case "create" => r := Create(c.filePath);
      case "add_slide" => r := AddSlide(c.slideType, c.title);
      case "add_text" => r := AddText(c.slideIndex, c.placeholderIndex, c.content);
      case "add_image" => r := AddImage(c.slideIndex, c.imagePath, env);
      case "save" => r := Save(env);
      case _ => r := Error(UnknownAction(c.action));
    }

    method Create(filePath: Option<string>) returns (r: ToolResult)
      modifies this
      ensures (Model(), r) == CreateSpec(old(Model()), filePath)
    {
      presentation := Some([]);
      if Given(filePath) {
        path := if Given(path) then path else filePath;
      }
      r := Output(Created);
    }

    method AddSlide(slideType: Option<string>, title: Option<string>) returns (r: ToolResult)
      modifies this
      ensures (Model(), r) == AddSlideSpec(layouts, old(Model()), slideType, title)
    {
      if presentation.None? {
        return Error(NoActivePresentation);
      }
      if !Given(slideType) || LayoutIndex(slideType.value).None? {
        return Error(InvalidSlideType(slideType));
      }
      var layout := LayoutIndex(slideType.value).value;
      var slide := Slide(layout, layouts(layout));
      var slides := presentation.value;
      var index := |slides|;
      presentation := Some(slides + [slide]);
      var titleAt := FirstMatch(slide.shapes, PlaceholderIdx(0));
      if Given(title) && titleAt.Some? && slide.shapes[titleAt.value].holdsText {
        presentation := Some(presentation.value[index := WithText(slide, titleAt.value, title.value)]);
        assert presentation.value == slides + [WithText(slide, titleAt.value, title.value)];
      }
      r := Output(SlideAdded(slideType.value, index));
    }

    method AddText(slideIndex: Option<int>, placeholderIndex: Option<int>, content: Option<string>) returns (r: ToolResult)
      modifies this
      ensures (Model(), r) == AddTextSpec(old(Model()), slideIndex, placeholderIndex, content)
    {
      if presentation.None? {
        return Error(NoActivePresentation);
      }
      if !SlideIndexOk(presentation.value, slideIndex) {
        return Error(InvalidSlideIndex(slideIndex));
      }
      if !Given(content) {
        return Error(NoContent);
      }
      var i: nat := slideIndex.value;
      var slide := presentation.value[i];
      if placeholderIndex.Some? {
        var at := FirstMatch(slide.shapes, PlaceholderIdx(placeholderIndex.value));
        if at.None? {
          return Error(PlaceholderNotFound(placeholderIndex.value, i));
        }
        if slide.shapes[at.value].holdsText {
          presentation := Some(presentation.value[i := WithText(slide, at.value, content.value)]);
        }
        return Output(TextAdded(placeholderIndex, i));
      }
      var j := 0;
      while j < |slide.shapes|
        invariant 0 <= j <= |slide.shapes|
        invariant forall m | 0 <= m < j :: !slide.shapes[m].holdsText
        invariant Model() == old(Model())
      {
        if slide.shapes[j].holdsText {
          presentation := Some(presentation.value[i := WithText(slide, j, content.value)]);
          return Output(TextAdded(None, i));
        }
        j := j + 1;
      }
      r := Error(NoSuitablePlaceholder(i));
    }

    method AddImage(slideIndex: Option<int>, imagePath: Option<string>, env: Env) returns (r: ToolResult)
      modifies this
      ensures (Model(), r) == AddImageSpec(root, old(Model()), slideIndex, imagePath, env)
    {
      if presentation.None? {
        return Error(NoActivePresentation);
      }
      if !SlideIndexOk(presentation.value, slideIndex) {
        return Error(InvalidSlideIndex(slideIndex));
      }
      if !Given(imagePath) {
        return Error(NoImagePath);
      }
      var file := ResolveImagePath(root, imagePath.value);
      if file !in env.existing {
        return Error(ImageNotFound(file));
      }
      var i: nat := slideIndex.value;
      var slide := presentation.value[i];
      if !env.canInsertPicture {
        return Error(ImageInsertFailed);
      }
      presentation := Some(presentation.value[i := slide.(shapes := slide.shapes + [Picture(file)])]);
      r := Output(ImageAdded(i));
    }

    method Save(env: Env) returns (r: ToolResult)
      modifies this
      ensures (Model(), r) == SaveSpec(old(Model()), env)
    {
      if presentation.None? {
        return Error(NoActivePresentation);
      }
      if !Given(path) {
        return Error(NoFilePath);
      }
      if !EndsWith(path.value, Extension) {
        path := Some(path.value + Extension);
      }
      if !env.canWrite {
        return Error(SaveFailed);
      }
      saved := saved[path.value := presentation.value];
      r := Output(Saved(path.value));
    }
  }
}
