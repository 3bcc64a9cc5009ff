/** The drawing surface the handler drives, as a log of paint operations.
    The object keeps the state that later text calls pick up (current font,
    size, fill colour and the x position of flowing text); line heights and
    the y position of flowing text depend on font metrics and stay abstract:
    a flowing text is recorded as placed below what came before, and a
    cursor advance as a multiple of the current line height. */
module Pdf {
  import opened JsValues

  /** Where a text's top edge is: an absolute y, or below the cursor. */
  datatype YPos = At(y: real) | Flow

  datatype Op =
    | FillRect(x: real, y: real, w: real, h: real, color: string)
    | FillStrokeRoundedRect(x: real, y: real, w: real, h: real, radius: real, fill: string, stroke: string)
    | Save
    | Restore
    | MoveDown(lines: real)
    | Text(content: string, x: real, top: YPos, width: real, align: string,
           characterSpacing: Option<real>, font: string, size: real, color: string)

  class PdfDocument {
    const width: real
    const height: real
    var font: string
    var fontSize: real
    var fillColor: string
    var x: real
    var log: seq<Op>

    /** A fresh one-page document with zero margins. */
    constructor (width: real, height: real)
      ensures this.width == width && this.height == height
      ensures font == "Helvetica" && fontSize == 12.0 && fillColor == "#000000"
      ensures x == 0.0 && log == []
    {
      this.width := width;
      this.height := height;
      font := "Helvetica";
      fontSize := 12.0;
      fillColor := "#000000";
      x := 0.0;
      log := [];
    }

    /** `rect(x, y, w, h).fill(color)`. */
    method FillRectangle(x: real, y: real, w: real, h: real, color: string)
      modifies this`log, this`fillColor
      ensures log == old(log) + [FillRect(x, y, w, h, color)]
      ensures fillColor == color
    {
      log := log + [FillRect(x, y, w, h, color)];
      fillColor := color;
    }

    /** `roundedRect(x, y, w, h, r).fillAndStroke(fill, stroke)`. */
    method FillAndStrokeRoundedRect(x: real, y: real, w: real, h: real, r: real, fill: string, stroke: string)
      modifies this`log, this`fillColor
      ensures log == old(log) + [FillStrokeRoundedRect(x, y, w, h, r, fill, stroke)]
      ensures fillColor == fill
    {
      log := log + [FillStrokeRoundedRect(x, y, w, h, r, fill, stroke)];
      fillColor := fill;
    }

    /** `save()`: pushes the graphics state. */
    method SaveState()
      modifies this`log
      ensures log == old(log) + [Save]
    {
      log := log + [Save];
    }

    /** `restore()`: pops the graphics state. */
    method RestoreState()
      modifies this`log
      ensures log == old(log) + [Restore]
    {
      log := log + [Restore];
    }

    /** `font(name)`. */
    method SetFont(name: string)
      modifies this`font
      ensures font == name
    {
      font := name;
    }

    /** `fontSize(size)`. */
    method SetFontSize(size: real)
      modifies this`fontSize
      ensures fontSize == size
    {
      fontSize := size;
    }

    /** `fillColor(color)`. */
    method SetFillColor(color: string)
      modifies this`fillColor
      ensures fillColor == color
    {
      fillColor := color;
    }

    /** `moveDown(lines)`: advances the cursor by that many line heights. */
    method Advance(lines: real)
      modifies this`log
      ensures log == old(log) + [MoveDown(lines)]
    {
      log := log + [MoveDown(lines)];
    }

    /** `text(content, x, y, options)`: draws at an absolute position, which
        becomes the x position of later flowing text. */
    method TextAt(content: string, x: real, y: real, width: real, align: string, spacing: Option<real>)
      modifies this`log, this`x
      ensures log == old(log) + [Text(content, x, At(y), width, align, spacing, font, fontSize, fillColor)]
      ensures this.x == x
    {
      log := log + [Text(content, x, At(y), width, align, spacing, font, fontSize, fillColor)];
      this.x := x;
    }

    /** `text(content, options)`: draws below the cursor at the current x. */
    method TextFlow(content: string, width: real, align: string)
      modifies this`log
      ensures log == old(log) + [Text(content, x, Flow, width, align, None, font, fontSize, fillColor)]
    {
      log := log + [Text(content, x, Flow, width, align, None, font, fontSize, fillColor)];
    }
  }
}
