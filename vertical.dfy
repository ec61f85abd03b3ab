/** The vertical node: two frame batches stacked one above the other, frame
    by frame, the top batch's rows first. */
module VideosConcateVertical {
  import opened Tensor
  import VideosConcateHorizontal

  const MismatchMessage: string :=
    "Both video sequences must have the same number of frames, width, and channels for vertical stacking"

  /** The node's check: frame count, width and channel count must agree;
      the heights may differ. */
  predicate Compatible<T>(top: Batch<T>, bottom: Batch<T>)
    ensures Compatible(top, bottom) <==> top.shape.(height := 0) == bottom.shape.(height := 0)
  {
    && top.shape.frames == bottom.shape.frames
    && top.shape.width == bottom.shape.width
    && top.shape.channels == bottom.shape.channels
  }

  /** What one call returns, stated on whole batches: the check, then a
      single height-axis concatenation of the two batches. */
  function Concatenated<T>(top: Batch<T>, bottom: Batch<T>): (r: Result<Batch<T>>)
    requires top.Valid() && bottom.Valid()
    ensures r == Err(ValueError(MismatchMessage)) <==>
              || top.shape.frames != bottom.shape.frames
              || top.shape.width != bottom.shape.width
              || top.shape.channels != bottom.shape.channels
    ensures r == Err(EmptyTensorList) <==> Compatible(top, bottom) && top.shape.frames == 0
    ensures r.Ok? <==>
              && top.shape.frames == bottom.shape.frames
              && top.shape.width == bottom.shape.width
              && top.shape.channels == bottom.shape.channels
              && top.shape.frames > 0
    ensures r.Ok? ==> r.value.Valid()
    ensures r.Ok? ==> r.value.shape == Shape(top.shape.frames, top.shape.height + bottom.shape.height,
                                             top.shape.width, top.shape.channels)
    ensures r.Ok? ==>
              forall i, y, x, c ::
                0 <= i < r.value.shape.frames && 0 <= y < r.value.shape.height &&
                0 <= x < r.value.shape.width && 0 <= c < r.value.shape.channels ==>
                  r.value.data[i][y][x][c] ==
                    if y < top.shape.height then top.data[i][y][x][c]
                    else bottom.data[i][y - top.shape.height][x][c]
  {
    if !Compatible(top, bottom) then Err(ValueError(MismatchMessage))
    else if top.shape.frames == 0 then Err(EmptyTensorList)
    else Ok(CatHeight(top, bottom))
  }

  /** `VideosConcateVertical.concate_videos`: check the shapes, join frame
      `i` of both batches for every `i` in order, then stack the joined
      frames. The batches are values, so neither input can change. */
  method ConcateVideos<T>(imagesTop: Batch<T>, imagesBottom: Batch<T>) returns (r: Result<Batch<T>>)
    requires imagesTop.Valid() && imagesBottom.Valid()
    ensures r == Concatenated(imagesTop, imagesBottom)
  {
    if !Compatible(imagesTop, imagesBottom) {
      return Err(ValueError(MismatchMessage));
    }
    assert HeightJoinable(imagesTop, imagesBottom);
    var numFrames := imagesTop.shape.frames;
    var resultFrames: seq<Batch<T>> := [];
    var i := 0;
    while i < numFrames
      invariant i <= numFrames
      invariant resultFrames == JoinedHeightFrames(imagesTop, imagesBottom, i)
    {
      var frame1 := SliceFrames(imagesTop, i, i + 1);
      var frame2 := SliceFrames(imagesBottom, i, i + 1);
      var concatenatedFrame := CatHeight(frame1, frame2);
      JoinedHeightFramesNext(imagesTop, imagesBottom, i);
      resultFrames := resultFrames + [concatenatedFrame];
      i := i + 1;
    }
    StackedJoinedFrames(imagesTop, imagesBottom);
    r := CatFrames(resultFrames);
  }

  /** A compatible pair gives what stacking the frame-by-frame joins
      gives: the loop's list, concatenated along the frames. */
  lemma StackedJoinedFrames<T>(top: Batch<T>, bottom: Batch<T>)
    requires top.Valid() && bottom.Valid()
    requires Compatible(top, bottom)
    ensures HeightJoinable(top, bottom)
    ensures Stackable(JoinedHeightFrames(top, bottom, top.shape.frames))
    ensures Concatenated(top, bottom) == CatFrames(JoinedHeightFrames(top, bottom, top.shape.frames))
  {
    JoinedHeightFramesCat(top, bottom);
  }

  /** Cropping a successful result back at the top batch's height gives
      both inputs again: nothing is lost, duplicated or reordered. */
  lemma SplitGivesInputsBack<T>(top: Batch<T>, bottom: Batch<T>)
    requires top.Valid() && bottom.Valid()
    requires Concatenated(top, bottom).Ok?
    ensures CropHeight(Concatenated(top, bottom).value, 0, top.shape.height) == top
    ensures CropHeight(Concatenated(top, bottom).value, top.shape.height,
                       top.shape.height + bottom.shape.height) == bottom
  {
    var joined := Concatenated(top, bottom).value;
    SamePixels(CropHeight(joined, 0, top.shape.height), top);
    SamePixels(CropHeight(joined, top.shape.height, top.shape.height + bottom.shape.height), bottom);
  }

  /** Frame `i` of a successful result is frame `i` of the top batch and
      frame `i` of the bottom batch joined on their own. */
  lemma FrameOrderKept<T>(top: Batch<T>, bottom: Batch<T>, i: nat)
    requires top.Valid() && bottom.Valid()
    requires Concatenated(top, bottom).Ok?
    requires i < top.shape.frames
    ensures Concatenated(top, bottom).value.data[i] ==
              CatHeight(SliceFrames(top, i, i + 1), SliceFrames(bottom, i, i + 1)).data[0]
  {
    CatHeightOfSlices(top, bottom, i);
  }

  /** The two nodes differ only in the axis: stacking vertically is placing
      side by side with height and width swapped. Both accept the same
      inputs, fail the same way, and agree on every successful result. */
  lemma TransposedHorizontal<T>(top: Batch<T>, bottom: Batch<T>)
    requires top.Valid() && bottom.Valid()
    ensures var h := VideosConcateHorizontal.Concatenated(Transpose(top), Transpose(bottom));
            && (Concatenated(top, bottom).Ok? <==> h.Ok?)
            && (Concatenated(top, bottom) == Err(EmptyTensorList) <==> h == Err(EmptyTensorList))
            && (h.Ok? ==> Concatenated(top, bottom).value == Transpose(h.value))
  {
    if Compatible(top, bottom) {
      CatHeightIsTransposedCatWidth(top, bottom);
    }
  }

  /** The converse: placing side by side is stacking vertically with height
      and width swapped. */
  lemma TransposedVertical<T>(left: Batch<T>, right: Batch<T>)
    requires left.Valid() && right.Valid()
    ensures var v := Concatenated(Transpose(left), Transpose(right));
            && (VideosConcateHorizontal.Concatenated(left, right).Ok? <==> v.Ok?)
            && (VideosConcateHorizontal.Concatenated(left, right) == Err(EmptyTensorList) <==> v == Err(EmptyTensorList))
            && (v.Ok? ==> VideosConcateHorizontal.Concatenated(left, right).value == Transpose(v.value))
  {
    TransposedHorizontal(Transpose(left), Transpose(right));
    TransposeTwice(left);
    TransposeTwice(right);
    var h := VideosConcateHorizontal.Concatenated(left, right);
    if h.Ok? {
      TransposeTwice(h.value);
    }
  }

  /** The shapes of the validation test table. */
  lemma ValidationTable<T>(top: Batch<T>, bottom: Batch<T>)
    requires top.Valid() && bottom.Valid()
    requires top.shape == Shape(2, 100, 200, 3)
    ensures bottom.shape == Shape(2, 100, 200, 3) ==>
              Concatenated(top, bottom).Ok? && Concatenated(top, bottom).value.shape == Shape(2, 200, 200, 3)
    ensures bottom.shape == Shape(3, 100, 200, 3) ==> Concatenated(top, bottom) == Err(ValueError(MismatchMessage))
    ensures bottom.shape == Shape(2, 100, 300, 3) ==> Concatenated(top, bottom) == Err(ValueError(MismatchMessage))
    ensures bottom.shape == Shape(2, 100, 200, 4) ==> Concatenated(top, bottom) == Err(ValueError(MismatchMessage))
    ensures bottom.shape == Shape(2, 150, 200, 3) ==>
              Concatenated(top, bottom).Ok? && Concatenated(top, bottom).value.shape == Shape(2, 250, 200, 3)
  {
  }
}
