/**
 * The text box of the HUD kit (class TextBox in hud_components.py): a box
 * at `pos` of `width` x `height` showing text aligned by name, with an
 * integer text size that is rescaled so the text fills a set share of the
 * box.
 */
module TextBoxes {
  import opened Outcomes
  import opened Numeric
  import opened Vectors
  import opened Buttons

  /** TextBox.horizontal_alignment: the share of the free width left of the text. */
  const HorizontalAlignment: map<string, real> := map["left" := 0.0, "center" := 0.5, "right" := 1.0]

  /** TextBox.vertical_alignment: the share of the free height above the text. */
  const VerticalAlignment: map<string, real> := map["top" := 0.0, "center" := 0.5, "bottom" := 1.0]

  /** Both tables map onto exactly {0, 0.5, 1}. */
  lemma AlignmentTables()
    ensures forall name | name in HorizontalAlignment :: IsAxisMark(HorizontalAlignment[name])
    ensures forall name | name in VerticalAlignment :: IsAxisMark(VerticalAlignment[name])
    ensures forall a | IsAxisMark(a) :: a in HorizontalAlignment.Values && a in VerticalAlignment.Values
  {
    assert HorizontalAlignment["left"] == 0.0 && HorizontalAlignment["center"] == 0.5 && HorizontalAlignment["right"] == 1.0;
    assert VerticalAlignment["top"] == 0.0 && VerticalAlignment["center"] == 0.5 && VerticalAlignment["bottom"] == 1.0;
  }

  /** Where the text starts along one axis of the box: the alignment share of
      the room the text leaves free. */
  function AlignOffset(align: real, boxLen: int, txtLen: int): real
  {
    align * (boxLen - txtLen) as real
  }

  /** A text no longer than the box stays inside it whatever the alignment:
      0 puts it at the start, 1 at the end, and 0.5 leaves equal margins. */
  lemma AlignOffsetPlacesText(align: real, boxLen: int, txtLen: int)
    requires IsAxisMark(align) && txtLen <= boxLen
    ensures var o := AlignOffset(align, boxLen, txtLen);
            0.0 <= o && o + txtLen as real <= boxLen as real &&
            (align == 0.0 ==> o == 0.0) &&
            (align == 1.0 ==> o + txtLen as real == boxLen as real) &&
            (align == 0.5 ==> o == boxLen as real - (o + txtLen as real))
  {
  }

  /** TextBox.resize_txt's decision for the fill ratios `w` and `h`: scale
      to make the larger ratio r when either ratio is above r, else when
      either is below r/2; a larger ratio of 0 makes the division raise. */
  function TextResizeFor(w: real, h: real): (res: Resize)
    ensures w > TxtSizeRatio || h > TxtSizeRatio ==> res == ScaledBy(TxtSizeRatio / Max(w, h))
    ensures res.Unchanged? <==> TxtSizeRatio / 2.0 <= w <= TxtSizeRatio && TxtSizeRatio / 2.0 <= h <= TxtSizeRatio
    ensures res.DividesByZero? <==> Max(w, h) == 0.0
    ensures res.ScaledBy? ==> res.factor * Max(w, h) == TxtSizeRatio
  {
    if w > TxtSizeRatio || h > TxtSizeRatio then
      ScaledBy(TxtSizeRatio / Max(w, h))
    else if w < TxtSizeRatio / 2.0 || h < TxtSizeRatio / 2.0 then
      if Max(w, h) == 0.0 then DividesByZero else ScaledBy(TxtSizeRatio / Max(w, h))
    else Unchanged
  }

  /** Whenever a button would rescale its text, a text box does the same;
      the converse fails, as TextResizeStricter shows. */
  lemma TextResizesWhenButtonDoes(w: real, h: real)
    ensures !ButtonResizeFor(w, h).Unchanged? ==> TextResizeFor(w, h) == ButtonResizeFor(w, h)
  {
  }

  /** Ratios of 0.1 and 0.5: a button keeps its text size, since the larger
      ratio lies in [0.3, 0.6], while a text box scales by 1.2 because the
      smaller ratio is below 0.3. */
  lemma TextResizeStricter()
    ensures ButtonResizeFor(0.1, 0.5) == Unchanged
    ensures TextResizeFor(0.1, 0.5) == ScaledBy(1.2)
  {
  }

  /** If the text's size grows in proportion to the text size, then after a
      text box rescale the larger ratio is exactly r, so a further call
      either leaves the size alone or scales by 1. */
  lemma TextResizeSettles(w: real, h: real)
    requires Max(w, h) > 0.0
    requires TextResizeFor(w, h).ScaledBy?
    ensures var k := TextResizeFor(w, h).factor;
            k > 0.0 && Max(w * k, h * k) == TxtSizeRatio &&
            TextResizeFor(w * k, h * k) in {Unchanged, ScaledBy(1.0)}
  {
    var k := TextResizeFor(w, h).factor;
    assert k == TxtSizeRatio / Max(w, h);
    MaxScales(w, h, k);
  }

  class TextBox {
    var pos: Vec
    var width: int
    var height: int
    var txtSize: int
    var hAlign: real
    var vAlign: real

    /** Both alignments are values of their tables. */
    ghost predicate Valid()
      reads this
    {
      IsAxisMark(hAlign) && IsAxisMark(vAlign)
    }

    /** TextBox.draw places the rendered text at the two alignment offsets:
        in a valid box, a text no larger than the box is drawn wholly inside
        it. */
    lemma TextDrawnInside(txtWidth: int, txtHeight: int)
      requires Valid() && txtWidth <= width && txtHeight <= height
      ensures var x, y := AlignOffset(hAlign, width, txtWidth), AlignOffset(vAlign, height, txtHeight);
              0.0 <= x && x + txtWidth as real <= width as real &&
              0.0 <= y && y + txtHeight as real <= height as real
    {
      AlignOffsetPlacesText(hAlign, width, txtWidth);
      AlignOffsetPlacesText(vAlign, height, txtHeight);
    }

    /** TextBox(...) with the default alignments 'left' and 'center'; the text
        size starts at half the height, truncated by the txt_size setter. */
    constructor (pos: Vec, width: int, height: int)
      ensures Valid()
      ensures this.pos == pos && this.width == width && this.height == height
      ensures txtSize == Trunc(height as real / 2.0)
      ensures hAlign == HorizontalAlignment["left"] && vAlign == VerticalAlignment["center"]
    {
      this.pos := pos;
      this.width := width;
      this.height := height;
      hAlign := HorizontalAlignment["left"];
      vAlign := VerticalAlignment["center"];
      txtSize := Trunc(height as real / 2.0);
    }

    /** TextBox(...) with named alignments: an unknown name raises ValueError,
        the horizontal one being checked first. */
    static method Create(pos: Vec, width: int, height: int, hName: string := "left", vName: string := "center")
      returns (res: Result<TextBox>)
      ensures res.Err? <==> hName !in HorizontalAlignment || vName !in VerticalAlignment
      ensures res.Err? ==> res.error == ValueError
      ensures res.Ok? ==> fresh(res.value) && res.value.Valid()
      ensures res.Ok? ==> res.value.pos == pos && res.value.width == width && res.value.height == height
      ensures res.Ok? ==> res.value.txtSize == Trunc(height as real / 2.0)
      ensures res.Ok? ==> res.value.hAlign == HorizontalAlignment[hName] && res.value.vAlign == VerticalAlignment[vName]
    {
      var box := new TextBox(pos, width, height);
      var raised := box.SetHAlign(hName);
      if raised.Some? {
        return Err(raised.value);
      }
      raised := box.SetVAlign(vName);
      if raised.Some? {
        return Err(raised.value);
      }
      return Ok(box);
    }

    /** The h_align setter: stores the table value of a known name; raises
        ValueError and changes nothing for any other name. */
    method SetHAlign(name: string) returns (raised: Option<Error>)
      requires Valid()
      modifies this
      ensures Valid()
      ensures raised == (if name in HorizontalAlignment then None else Some(ValueError))
      ensures hAlign == (if name in HorizontalAlignment then HorizontalAlignment[name] else old(hAlign))
      ensures pos == old(pos) && width == old(width) && height == old(height)
      ensures txtSize == old(txtSize) && vAlign == old(vAlign)
    {
      if name !in HorizontalAlignment {
        return Some(ValueError);
      }
      AlignmentTables();
      hAlign := HorizontalAlignment[name];
      return None;
    }

    /** The v_align setter: stores the table value of a known name; raises
        ValueError and changes nothing for any other name. */
    method SetVAlign(name: string) returns (raised: Option<Error>)
      requires Valid()
      modifies this
      ensures Valid()
      ensures raised == (if name in VerticalAlignment then None else Some(ValueError))
      ensures vAlign == (if name in VerticalAlignment then VerticalAlignment[name] else old(vAlign))
      ensures pos == old(pos) && width == old(width) && height == old(height)
      ensures txtSize == old(txtSize) && hAlign == old(hAlign)
    {
      if name !in VerticalAlignment {
        return Some(ValueError);
      }
      AlignmentTables();
      vAlign := VerticalAlignment[name];
      return None;
    }

    /** The txt_size setter: stores the size truncated toward zero, so within
        1 of the size and never further from zero. */
    method SetTxtSize(size: real)
      modifies this
      ensures txtSize == Trunc(size)
      ensures Abs(size - txtSize as real) < 1.0 && Abs(txtSize as real) <= Abs(size)
      ensures pos == old(pos) && width == old(width) && height == old(height)
      ensures hAlign == old(hAlign) && vAlign == old(vAlign)
    {
      txtSize := Trunc(size);
    }

    /** is_within_rect: `p` is strictly inside the box, so a point of its
        border does not count. */
    function IsWithinRect(p: Vec): (r: bool)
      reads this
      ensures r <==> InClosedBox(pos, width as real, height as real, p) && !OnEdge(pos, width as real, height as real, p)
    {
      p.x > pos.x && p.x < pos.x + width as real && p.y > pos.y && p.y < pos.y + height as real
    }

    /** resize_txt(width, height) for a rendered text of that size: raises
        ZeroDivisionError for a zero box side or a zero larger ratio,
        otherwise applies TextResizeFor through the truncating txt_size
        setter and returns the text size. */
    method ResizeTxt(textW: nat, textH: nat) returns (res: Result<int>)
      modifies this
      ensures width == 0 || height == 0 ==> res == Err(ZeroDivisionError) && txtSize == old(txtSize)
      ensures width != 0 && height != 0 ==>
                match TextResizeFor(Ratio(textW, width), Ratio(textH, height))
                case Unchanged => res == Ok(txtSize) && txtSize == old(txtSize)
                case ScaledBy(k) => res == Ok(txtSize) && txtSize == Trunc(old(txtSize) as real * k)
                case DividesByZero => res == Err(ZeroDivisionError) && txtSize == old(txtSize)
      ensures pos == old(pos) && width == old(width) && height == old(height)
      ensures hAlign == old(hAlign) && vAlign == old(vAlign)
    {
      if width == 0 || height == 0 {
        return Err(ZeroDivisionError);
      }
      var w := Ratio(textW, width);
      var h := Ratio(textH, height);
      if w > TxtSizeRatio || h > TxtSizeRatio {
        var k := TxtSizeRatio / Max(w, h);
        assert TextResizeFor(w, h) == ScaledBy(k);
        txtSize := Trunc(txtSize as real * k);
      } else if w < TxtSizeRatio / 2.0 || h < TxtSizeRatio / 2.0 {
        if Max(w, h) == 0.0 {
          return Err(ZeroDivisionError);
        }
        var k := TxtSizeRatio / Max(w, h);
        assert TextResizeFor(w, h) == ScaledBy(k);
        txtSize := Trunc(txtSize as real * k);
      }
      return Ok(txtSize);
    }
  }
}
