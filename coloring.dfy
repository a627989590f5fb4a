/**
 * The colouring session of `src/pages/ColoringPage.tsx`: the selected tool,
 * brush size and colour, the drawing canvas with its free-drawing brush and
 * its stack of objects, and the handlers that update them in place.
 */
module Coloring {
  import opened Wrappers
  import opened Strings
  import opened Types
  import AiService

  datatype Tool = Brush | Fill | Eraser

  /**
   * An object on the canvas. Its pixels are the drawing library's business:
   * only whether it is the outline image or a drawn path is kept.
   */
  datatype CanvasObject = OutlineImage(url: string) | DrawnPath(id: nat)

  const InitialBrushSize := 10
  const InitialColor := "#FF6B9D"
  /** Erasing is drawing in the canvas background colour. */
  const EraserColor := "#ffffff"
  /** The bounds of the brush-size slider. */
  const MinBrushSize := 1
  const MaxBrushSize := 50

  /** The drawing library's free-drawing brush. */
  class PencilBrush {
    var color: string
    var width: int

    /** The library's defaults; every caller overwrites both at once. */
    constructor ()
      ensures color == "rgb(0, 0, 0)" && width == 1
    {
      color := "rgb(0, 0, 0)";
      width := 1;
    }
  }

  /** The drawing library's canvas: drawing mode, current brush and object stack (bottom first). */
  class Canvas {
    var isDrawingMode: bool
    var freeDrawingBrush: PencilBrush?
    var objects: seq<CanvasObject>

    /**
     * A new, empty canvas. Whether the library equips it with a brush of its
     * own is left open: `defaultBrush` is that brush, or null.
     */
    constructor (defaultBrush: PencilBrush?)
      ensures !isDrawingMode && freeDrawingBrush == defaultBrush && objects == []
    {
      isDrawingMode := false;
      freeDrawingBrush := defaultBrush;
      objects := [];
    }

    /** `canvas.add(o)`: `o` goes on top of the stack. */
    method Add(o: CanvasObject)
      modifies this
      ensures objects == old(objects) + [o]
      ensures isDrawingMode == old(isDrawingMode) && freeDrawingBrush == old(freeDrawingBrush)
    {
      objects := objects + [o];
    }
  }

  /** The object stack after one undo: the top object goes, unless it is the only one. */
  function UndoObjects(objects: seq<CanvasObject>): (r: seq<CanvasObject>)
    ensures |r| == if |objects| > 1 then |objects| - 1 else |objects|
    ensures r == objects[..|r|]
  {
    if |objects| > 1 then objects[..|objects| - 1] else objects
  }

  /** One undo removes exactly the top object when there are two or more, and is a no-op otherwise. */
  lemma UndoRemovesTop(objects: seq<CanvasObject>)
    ensures |objects| > 1 ==> UndoObjects(objects) + [objects[|objects| - 1]] == objects
    ensures |objects| <= 1 ==> UndoObjects(objects) == objects
  {
  }

  /** The stack after `k` consecutive undos. */
  function UndoTimes(objects: seq<CanvasObject>, k: nat): seq<CanvasObject>
  {
    if k == 0 then objects else UndoTimes(UndoObjects(objects), k - 1)
  }

  /**
   * Repeated undo peels objects off the top one at a time, keeps the rest in
   * order, and never removes the bottom object.
   */
  lemma {:induction false} UndoTimesKeepsBottom(objects: seq<CanvasObject>, k: nat)
    ensures |objects| == 0 ==> UndoTimes(objects, k) == []
    ensures |objects| > 0 ==>
      var r := UndoTimes(objects, k);
      |r| == (if |objects| - k >= 1 then |objects| - k else 1) && r == objects[..|r|] && r[0] == objects[0]
  {
    if k > 0 {
      var u := UndoObjects(objects);
      UndoTimesKeepsBottom(u, k - 1);
      if |objects| > 0 {
        var r := UndoTimes(objects, k);
        assert r == UndoTimes(u, k - 1);
        assert u == objects[..|u|];
        assert objects[..|u|][..|r|] == objects[..|r|];
      }
    }
  }

  const ExportPrefix := "coloring-"
  const DefaultExportTitle := "artwork"

  /** `coloringImage?.title || 'artwork'`: the image title, unless there is no image or the title is empty. */
  function ExportTitle(image: Option<ColoringImage>): (t: string)
    ensures t != ""
    ensures image.Some? && image.value.title != "" ==> t == image.value.title
    ensures image.None? || image.value.title == "" ==> t == DefaultExportTitle
  {
    if image.Some? && image.value.title != "" then image.value.title else DefaultExportTitle
  }

  /** The download name of an export: `coloring-<title>.<ext>`. */
  function ExportFileName(image: Option<ColoringImage>, ext: string): (r: string)
    ensures StartsWith(r, ExportPrefix)
    ensures |r| == |ExportPrefix| + |ExportTitle(image)| + 1 + |ext|
  {
    ExportPrefix + ExportTitle(image) + "." + ext
  }

  /** Recovers the title from a file name of the form `coloring-<title>.<ext>`, if it has that form. */
  function ExportTitleOf(name: string, ext: string): Option<string>
  {
    var n := |ExportPrefix|;
    if |name| >= n + |ext| + 1 && name[..n] == ExportPrefix && name[|name| - |ext| - 1..] == "." + ext
    then Some(name[n..|name| - |ext| - 1])
    else None
  }

  /** The export name carries the prefix, the title and the extension, and the title can be read back. */
  lemma ExportFileNameRoundTrip(image: Option<ColoringImage>, ext: string)
    ensures StartsWith(ExportFileName(image, ext), ExportPrefix)
    ensures ExportTitleOf(ExportFileName(image, ext), ext) == Some(ExportTitle(image))
  {
    var t := ExportTitle(image);
    var name := ExportFileName(image, ext);
    assert name == ExportPrefix + (t + ("." + ext));
    assert name[..|ExportPrefix|] == ExportPrefix;
    assert name[|name| - |ext| - 1..] == "." + ext;
    assert name[|ExportPrefix|..|name| - |ext| - 1] == t;
  }

  /** Images with different non-empty titles are exported under different names. */
  lemma ExportFileNameDistinguishesTitles(a: ColoringImage, b: ColoringImage, ext: string)
    requires a.title != "" && b.title != "" && a.title != b.title
    ensures ExportFileName(Some(a), ext) != ExportFileName(Some(b), ext)
  {
    ExportFileNameRoundTrip(Some(a), ext);
    ExportFileNameRoundTrip(Some(b), ext);
  }

  /**
   * The image a session opens on its route id: a freshly generated "Happy Cat"
   * for `new`, otherwise the stored cat outline under that id (or "1").
   */
  function LoadColoringImage(routeId: Option<string>, now: nat): (r: ColoringImage)
    ensures routeId == Some("new") ==> r == AiService.GenerateColoringImage("Happy Cat", "animals", now)
    ensures routeId != Some("new") ==>
      && r.id == (if routeId.Some? && routeId.value != "" then routeId.value else "1")
      && r.title == "Happy Cat" && r.category == "animals" && r.difficulty == Easy && r.isAI
  {
    if routeId == Some("new") then AiService.GenerateColoringImage("Happy Cat", "animals", now)
    else ColoringImage(
      id := if routeId.Some? && routeId.value != "" then routeId.value else "1",
      title := "Happy Cat",
      description := "A cute cat waiting to be colored!",
      originalImageUrl := "https://via.placeholder.com/600x600/FFE5E5/FF6B9D?text=Happy+Cat",
      outlineImageUrl := "https://via.placeholder.com/600x600/FFFFFF/000000?text=Cat+Outline",
      category := "animals",
      difficulty := Easy,
      tags := ["cat", "animals", "cute"],
      createdAt := now,
      isAI := true)
  }

  /** Whatever the route, the session opens on an image with a title, so exports never fall back to "artwork". */
  lemma LoadedImageExportsUnderItsTitle(routeId: Option<string>, now: nat)
    ensures ExportTitle(Some(LoadColoringImage(routeId, now))) == "Happy Cat"
  {
  }

  /** One colouring session: the page's state plus the canvas it drives, once there is one. */
  class ColoringSession {
    var coloringImage: Option<ColoringImage>
    var currentTool: Tool
    var brushSize: int
    var selectedColor: string
    var canvas: Canvas?

    /** The objects a brush-changing handler may write: the current brush, if there is one. */
    ghost function BrushFrame(): set<object>
      reads this, canvas
    {
      if canvas != null && canvas.freeDrawingBrush != null then {canvas.freeDrawingBrush} else {}
    }

    /**
     * The canvas agrees with the selected tool: drawing mode is on except for
     * `fill`, the brush is as wide as the selected size, and it paints the
     * selected colour under `brush` and white under `eraser`.
     */
    ghost predicate InSync()
      reads this, canvas, BrushFrame()
    {
      canvas != null ==>
        && canvas.isDrawingMode == (currentTool != Fill)
        && (canvas.freeDrawingBrush != null ==>
              && canvas.freeDrawingBrush.width == brushSize
              && (currentTool == Brush ==> canvas.freeDrawingBrush.color == selectedColor)
              && (currentTool == Eraser ==> canvas.freeDrawingBrush.color == EraserColor))
    }

    /** A fresh page: brush tool, size 10, pink, no image and no canvas yet. */
    constructor ()
      ensures coloringImage == None && canvas == null
      ensures currentTool == Brush && brushSize == InitialBrushSize && selectedColor == InitialColor
      ensures InSync()
    {
      coloringImage := None;
      currentTool := Brush;
      brushSize := 10;
      selectedColor := "#FF6B9D";
      canvas := null;
    }

    /** The image to colour has been resolved. */
    method SetColoringImage(image: ColoringImage)
      modifies this
      ensures coloringImage == Some(image)
      ensures currentTool == old(currentTool) && brushSize == old(brushSize)
      ensures selectedColor == old(selectedColor) && canvas == old(canvas)
    {
      coloringImage := Some(image);
    }

    /**
     * Creates the canvas once an image is loaded and the canvas element is
     * mounted, turns drawing mode on and configures the brush, if the library
     * provided one. The outline image arrives later, through `AddObject`.
     */
    method InitializeCanvas(elementMounted: bool, defaultBrush: PencilBrush?)
      modifies this, defaultBrush
      ensures currentTool == old(currentTool) && brushSize == old(brushSize)
      ensures selectedColor == old(selectedColor) && coloringImage == old(coloringImage)
      ensures !elementMounted || coloringImage.None? ==> canvas == old(canvas)
      ensures elementMounted && coloringImage.Some? ==>
        && canvas != null && fresh(canvas)
        && canvas.isDrawingMode && canvas.objects == []
        && canvas.freeDrawingBrush == defaultBrush
        && (defaultBrush != null ==> defaultBrush.width == brushSize && defaultBrush.color == selectedColor)
      ensures elementMounted && coloringImage.Some? && currentTool == Brush ==> InSync()
    {
      if !elementMounted || coloringImage.None? {
        return;
      }
      var c := new Canvas(defaultBrush);
      canvas := c;
      c.isDrawingMode := true;
      if c.freeDrawingBrush != null {
        c.freeDrawingBrush.width := brushSize;
        c.freeDrawingBrush.color := selectedColor;
      }
    }

    /**
     * The library puts an object on top of the canvas: the outline image once
     * it has loaded, or a path the user has just drawn.
     */
    method AddObject(o: CanvasObject)
      modifies canvas
      ensures canvas != null ==> canvas.objects == old(canvas.objects) + [o]
      ensures canvas != null ==>
        canvas.isDrawingMode == old(canvas.isDrawingMode) && canvas.freeDrawingBrush == old(canvas.freeDrawingBrush)
      ensures old(InSync()) ==> InSync()
    {
      if canvas != null {
        canvas.Add(o);
      }
    }

    /**
     * Selects a tool. Brush and eraser turn drawing mode on with a new brush
     * of the selected size, in the selected colour or in white; fill turns
     * drawing mode off and leaves the brush alone.
     */
    method HandleToolChange(tool: Tool)
      modifies this, canvas
      ensures currentTool == tool
      ensures brushSize == old(brushSize) && selectedColor == old(selectedColor)
      ensures coloringImage == old(coloringImage) && canvas == old(canvas)
      ensures canvas != null ==> canvas.isDrawingMode == (tool == Brush || tool == Eraser)
      ensures canvas != null ==> canvas.objects == old(canvas.objects)
      ensures canvas != null && tool == Fill ==> canvas.freeDrawingBrush == old(canvas.freeDrawingBrush)
      ensures canvas != null && tool != Fill ==>
        && canvas.freeDrawingBrush != null && fresh(canvas.freeDrawingBrush)
        && canvas.freeDrawingBrush.width == brushSize
        && canvas.freeDrawingBrush.color == (if tool == Brush then selectedColor else EraserColor)
      ensures old(InSync()) ==> InSync()
    {
      currentTool := tool;
      if canvas != null {
        canvas.isDrawingMode := tool == Brush || tool == Eraser;
        if tool == Brush {
          var b := new PencilBrush();
          canvas.freeDrawingBrush := b;
          b.width := brushSize;
          b.color := selectedColor;
        } else if tool == Eraser {
          var b := new PencilBrush();
          canvas.freeDrawingBrush := b;
          b.width := brushSize;
          b.color := EraserColor;
        }
      }
    }

    /**
     * Selects a colour. The brush takes it only while the brush tool is
     * active, so the eraser keeps painting white.
     */
    method HandleColorChange(color: string)
      modifies this, BrushFrame()
      ensures selectedColor == color
      ensures currentTool == old(currentTool) && brushSize == old(brushSize)
      ensures coloringImage == old(coloringImage) && canvas == old(canvas)
      ensures canvas != null ==> unchanged(canvas)
      ensures canvas != null && canvas.freeDrawingBrush != null ==>
        && canvas.freeDrawingBrush.width == old(canvas.freeDrawingBrush.width)
        && canvas.freeDrawingBrush.color == (if currentTool == Brush then color else old(canvas.freeDrawingBrush.color))
      ensures old(InSync()) ==> InSync()
    {
      selectedColor := color;
      if canvas != null && currentTool == Brush && canvas.freeDrawingBrush != null {
        canvas.freeDrawingBrush.color := color;
      }
    }

    /** Sets the brush size from the slider; the brush takes it whatever the tool. */
    method HandleBrushSizeChange(size: int)
      requires MinBrushSize <= size <= MaxBrushSize
      modifies this, BrushFrame()
      ensures brushSize == size
      ensures currentTool == old(currentTool) && selectedColor == old(selectedColor)
      ensures coloringImage == old(coloringImage) && canvas == old(canvas)
      ensures canvas != null ==> unchanged(canvas)
      ensures canvas != null && canvas.freeDrawingBrush != null ==>
        canvas.freeDrawingBrush.width == size && canvas.freeDrawingBrush.color == old(canvas.freeDrawingBrush.color)
      ensures old(InSync()) ==> InSync()
    {
      brushSize := size;
      if canvas != null && canvas.freeDrawingBrush != null {
        canvas.freeDrawingBrush.width := size;
      }
    }

    /** Removes the top object of the canvas when it holds more than one. */
    method HandleUndo()
      modifies canvas
      ensures canvas != null ==> canvas.objects == UndoObjects(old(canvas.objects))
      ensures canvas != null ==>
        canvas.isDrawingMode == old(canvas.isDrawingMode) && canvas.freeDrawingBrush == old(canvas.freeDrawingBrush)
      ensures old(InSync()) ==> InSync()
    {
      if canvas != null {
        var objects := canvas.objects;
        if |objects| > 1 {
          canvas.objects := objects[..|objects| - 1];
        }
      }
    }

    /** The name the PNG download gets, when there is a canvas to export. */
    method HandleSave() returns (fileName: Option<string>)
      ensures fileName.Some? <==> canvas != null
      ensures fileName.Some? ==> fileName.value == ExportFileName(coloringImage, "png")
    {
      if canvas == null {
        return None;
      }
      fileName := Some(ExportFileName(coloringImage, "png"));
    }

    /** The name the PDF download gets, when there is a canvas to export. */
    method HandleExportPdf() returns (fileName: Option<string>)
      ensures fileName.Some? <==> canvas != null
      ensures fileName.Some? ==> fileName.value == ExportFileName(coloringImage, "pdf")
    {
      if canvas == null {
        return None;
      }
      fileName := Some(ExportFileName(coloringImage, "pdf"));
    }
  }
}
