/**
 * The `TimelineView` object: its public properties, whose `didSet`
 * observers rebuild the content, the rebuild `setupContent` itself, and the
 * tag lookup of `tapImage`.
 */
module Timeline {
  import opened Wrappers
  import opened Bullets
  import opened Layout

  /**
   * What `setupContent` adds once the old subviews are gone: the guide, one
   * block per event chained below the view above it, and the tail line below
   * the last one, sent to the back; returns the subviews in order, back to
   * front, and the constraints in the order they are installed.
   */
  method BuildContent(frames: seq<TimeFrame>, style: Style)
    returns (added: seq<View>, installed: seq<Constraint>)
    ensures added == Children(frames, style)
    ensures installed == LayoutConstraints(|frames|)
  {
    added := [GuideView];
    installed := GuideConstraints();
    var viewFromAbove := Guide;
    var i := 0;
    while i < |frames|
      invariant 0 <= i <= |frames|
      invariant added == [GuideView] + Blocks(frames[..i], style)
      invariant installed == GuideConstraints() + StackConstraints(i)
      invariant viewFromAbove == Stacked(i)
    {
      StackStep(frames, style, i, added, installed);
      var v := BlockForTimeFrame(frames[i], i, style);
      added := added + [v];
      installed := installed + LinkConstraints(i);
      viewFromAbove := v.Id();
      i := i + 1;
    }
    assert frames[..i] == frames;
    TailStep(frames, style, added, installed);

    var line := TailLine(style.lineColor);
    assert (added + [line])[..|added|] == added;
    added := added + [line];
    // sendSubviewToBack(line)
    added := [added[|added| - 1]] + added[..|added| - 1];
    installed := installed + TailConstraints(viewFromAbove);
    installed := installed + [Constraint(viewFromAbove, Bottom, Of(Container, Bottom), 0.0)];
  }

  class TimelineView {
    var timeFrames: seq<TimeFrame>
    var lineColor: Color
    var titleLabelColor: Color
    var detailLabelColor: Color
    var bulletType: BulletType
    /** The direct subviews, back to front. */
    var children: seq<View>
    /** The constraints installed on the view itself. */
    var constraints: seq<Constraint>

    function CurrentStyle(): Style
      reads this`lineColor, this`titleLabelColor, this`detailLabelColor, this`bulletType
    {
      Style(lineColor, titleLabelColor, detailLabelColor, bulletType)
    }

    /** Every constraint on the view is about one of its children. */
    ghost predicate Valid()
      reads this`children, this`constraints
    {
      ItemsAreChildren(constraints, children)
    }

    /** `init(bulletType:timeFrames:)`: default colours, then one rebuild. */
    constructor (bulletType: BulletType, timeFrames: seq<TimeFrame>)
      ensures Valid()
      ensures this.timeFrames == timeFrames && this.bulletType == bulletType
      ensures lineColor == LightGray && titleLabelColor == DefaultTitleLabelColor
      ensures detailLabelColor == DefaultDetailLabelColor
      ensures children == Children(timeFrames, CurrentStyle())
      ensures constraints == LayoutConstraints(|timeFrames|)
    {
      this.timeFrames := timeFrames;
      this.bulletType := bulletType;
      lineColor := LightGray;
      titleLabelColor := DefaultTitleLabelColor;
      detailLabelColor := DefaultDetailLabelColor;
      children := [];
      constraints := [];
      new;
      SetupContent();
    }

    /**
     * The first loop of `setupContent`: every subview leaves the view, and
     * with it every constraint that mentions it.
     */
    method RemoveAllSubviews()
      requires Valid()
      modifies this`children, this`constraints
      ensures children == [] && constraints == []
    {
      var subviews := children;
      var k := 0;
      while k < |subviews|
        invariant 0 <= k <= |subviews|
        invariant children == subviews[k..]
        invariant Valid()
      {
        var id := subviews[k].Id();
        assert children == [subviews[k]] + children[1..];
        constraints := WithoutView(constraints, id);
        children := children[1..];
        k := k + 1;
      }
      NoViewsNoConstraints(constraints, children);
    }

    /**
     * `setupContent`: remove every subview, then add the guide, one block per
     * event chained below the view above it, and the tail line, which is sent
     * to the back.
     */
    method SetupContent()
      requires Valid()
      modifies this`children, this`constraints
      ensures Valid()
      ensures children == Children(timeFrames, CurrentStyle())
      ensures constraints == LayoutConstraints(|timeFrames|)
    {
      RemoveAllSubviews();
      children, constraints := BuildContent(timeFrames, CurrentStyle());
      LayoutConstraintItemsAreChildren(timeFrames, CurrentStyle());
    }

    /** `timeFrames = fs`: store, then rebuild. */
    method SetTimeFrames(fs: seq<TimeFrame>)
      requires Valid()
      modifies this
      ensures Valid()
      ensures timeFrames == fs && CurrentStyle() == old(CurrentStyle())
      ensures children == Children(fs, CurrentStyle())
      ensures constraints == LayoutConstraints(|fs|)
    {
      timeFrames := fs;
      SetupContent();
    }

    /** `lineColor = c`: store, then rebuild. */
    method SetLineColor(c: Color)
      requires Valid()
      modifies this
      ensures Valid()
      ensures CurrentStyle() == old(CurrentStyle()).(lineColor := c) && timeFrames == old(timeFrames)
      ensures children == Children(timeFrames, CurrentStyle())
      ensures constraints == LayoutConstraints(|timeFrames|)
    {
      lineColor := c;
      SetupContent();
    }

    /** `titleLabelColor = c`: store, then rebuild. */
    method SetTitleLabelColor(c: Color)
      requires Valid()
      modifies this
      ensures Valid()
      ensures CurrentStyle() == old(CurrentStyle()).(titleLabelColor := c) && timeFrames == old(timeFrames)
      ensures children == Children(timeFrames, CurrentStyle())
      ensures constraints == LayoutConstraints(|timeFrames|)
    {
      titleLabelColor := c;
      SetupContent();
    }

    /** `detailLabelColor = c`: store, then rebuild. */
    method SetDetailLabelColor(c: Color)
      requires Valid()
      modifies this
      ensures Valid()
      ensures CurrentStyle() == old(CurrentStyle()).(detailLabelColor := c) && timeFrames == old(timeFrames)
      ensures children == Children(timeFrames, CurrentStyle())
      ensures constraints == LayoutConstraints(|timeFrames|)
    {
      detailLabelColor := c;
      SetupContent();
    }

    /** `bulletType = t`: store, then rebuild. */
    method SetBulletType(t: BulletType)
      requires Valid()
      modifies this
      ensures Valid()
      ensures CurrentStyle() == old(CurrentStyle()).(bulletType := t) && timeFrames == old(timeFrames)
      ensures children == Children(timeFrames, CurrentStyle())
      ensures constraints == LayoutConstraints(|timeFrames|)
    {
      bulletType := t;
      SetupContent();
    }

    /**
     * The lookup of `tapImage(button)`: scan every subview of every child
     * for an image view carrying the button's tag; with no early exit, the
     * last one found is kept.
     */
    method TapImage(buttonTag: int) returns (imageView: Option<Subview>)
      ensures imageView == LastImageView(Grandchildren(children), buttonTag)
    {
      imageView := None;
      var i := 0;
      while i < |children|
        invariant 0 <= i <= |children|
        invariant imageView == LastImageView(Grandchildren(children[..i]), buttonTag)
      {
        var v := children[i];
        var subviews := v.Children();
        var j := 0;
        assert Grandchildren(children[..i]) + subviews[..0] == Grandchildren(children[..i]);
        while j < |subviews|
          invariant 0 <= j <= |subviews|
          invariant imageView == LastImageView(Grandchildren(children[..i]) + subviews[..j], buttonTag)
        {
          var w := subviews[j];
          if w.Tag() == buttonTag && w.ImageView? {
            imageView := Some(w);
          }
          assert (Grandchildren(children[..i]) + subviews[..j + 1])[..|Grandchildren(children[..i])| + j]
            == Grandchildren(children[..i]) + subviews[..j];
          j := j + 1;
        }
        assert subviews[..j] == subviews;
        assert children[..i + 1][..i] == children[..i];
        i := i + 1;
      }
      assert children[..i] == children;
    }
  }
}
