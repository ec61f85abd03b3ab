/** The horizontal node: two frame batches placed side by side, frame by
    frame, the left batch's columns first. */
module VideosConcateHorizontal {
  import opened Tensor

  const MismatchMessage: string :=
    "Both video sequences must have the same number of frames, height, and channels for horizontal stacking"

  /** The node's check: frame count, height and channel count must agree;
      the widths may differ. */
  predicate Compatible<T>(left: Batch<T>, right: Batch<T>)
    ensures Compatible(left, right) <==> left.shape.(width := 0) == right.shape.(width := 0)
  {
    && left.shape.frames == right.shape.frames
    && left.shape.height == right.shape.height
    && left.shape.channels == right.shape.channels
  }

  /** What one call returns, stated on whole batches: the check, then a
      single width-axis concatenation of the two batches. */
  function Concatenated<T>(left: Batch<T>, right: Batch<T>): (r: Result<Batch<T>>)
    requires left.Valid() && right.Valid()
    ensures r == Err(ValueError(MismatchMessage)) <==>
              || left.shape.frames != right.shape.frames
              || left.shape.height != right.shape.height
              || left.shape.channels != right.shape.channels
    ensures r == Err(EmptyTensorList) <==> Compatible(left, right) && left.shape.frames == 0
    ensures r.Ok? <==>
              && left.shape.frames == right.shape.frames
              && left.shape.height == right.shape.height
              && left.shape.channels == right.shape.channels
              && left.shape.frames > 0
    ensures r.Ok? ==> r.value.Valid()
    ensures r.Ok? ==> r.value.shape == Shape(left.shape.frames, left.shape.height,
                                             left.shape.width + right.shape.width, left.shape.channels)
    ensures r.Ok? ==>
              forall i, y, x, c ::
                0 <= i < r.value.shape.frames && 0 <= y < r.value.shape.height &&
                0 <= x < r.value.shape.width && 0 <= c < r.value.shape.channels ==>
                  r.value.data[i][y][x][c] ==
                    if x < left.shape.width then left.data[i][y][x][c]
                    else right.data[i][y][x - left.shape.width][c]
  {
    if !Compatible(left, right) then Err(ValueError(MismatchMessage))
    else if left.shape.frames == 0 then Err(EmptyTensorList)
    else Ok(CatWidth(left, right))
  }

  /** `VideosConcateHorizontal.concate_videos`: check the shapes, join frame
      `i` of both batches for every `i` in order, then stack the joined
      frames. The batches are values, so neither input can change. */
  method ConcateVideos<T>(imagesLeft: Batch<T>, imagesRight: Batch<T>) returns (r: Result<Batch<T>>)
    requires imagesLeft.Valid() && imagesRight.Valid()
    ensures r == Concatenated(imagesLeft, imagesRight)
  {
    if !Compatible(imagesLeft, imagesRight) {
      return Err(ValueError(MismatchMessage));
    }
    assert WidthJoinable(imagesLeft, imagesRight);
    var numFrames := imagesLeft.shape.frames;
    var resultFrames: seq<Batch<T>> := [];
    var i := 0;
    while i < numFrames
      invariant i <= numFrames
      invariant resultFrames == JoinedWidthFrames(imagesLeft, imagesRight, i)
    {
      var frame1 := SliceFrames(imagesLeft, i, i + 1);
      var frame2 := SliceFrames(imagesRight, i, i + 1);
      var concatenatedFrame := CatWidth(frame1, frame2);
      JoinedWidthFramesNext(imagesLeft, imagesRight, i);
      resultFrames := resultFrames + [concatenatedFrame];
      i := i + 1;
    }
    StackedJoinedFrames(imagesLeft, imagesRight);
    r := CatFrames(resultFrames);
  }

  /** A compatible pair gives what stacking the frame-by-frame joins
      gives: the loop's list, concatenated along the frames. */
  lemma StackedJoinedFrames<T>(left: Batch<T>, right: Batch<T>)
    requires left.Valid() && right.Valid()
    requires Compatible(left, right)
    ensures WidthJoinable(left, right)
    ensures Stackable(JoinedWidthFrames(left, right, left.shape.frames))
    ensures Concatenated(left, right) == CatFrames(JoinedWidthFrames(left, right, left.shape.frames))
  {
    JoinedWidthFramesCat(left, right);
  }

  /** Cropping a successful result back at the left batch's width gives
      both inputs again: nothing is lost, duplicated or reordered. */
  lemma SplitGivesInputsBack<T>(left: Batch<T>, right: Batch<T>)
    requires left.Valid() && right.Valid()
    requires Concatenated(left, right).Ok?
    ensures CropWidth(Concatenated(left, right).value, 0, left.shape.width) == left
    ensures CropWidth(Concatenated(left, right).value, left.shape.width,
                      left.shape.width + right.shape.width) == right
  {
    var joined := Concatenated(left, right).value;
    SamePixels(CropWidth(joined, 0, left.shape.width), left);
    SamePixels(CropWidth(joined, left.shape.width, left.shape.width + right.shape.width), right);
  }

  /** Frame `i` of a successful result is frame `i` of the left batch and
      frame `i` of the right batch joined on their own. */
  lemma FrameOrderKept<T>(left: Batch<T>, right: Batch<T>, i: nat)
    requires left.Valid() && right.Valid()
    requires Concatenated(left, right).Ok?
    requires i < left.shape.frames
    ensures Concatenated(left, right).value.data[i] ==
              CatWidth(SliceFrames(left, i, i + 1), SliceFrames(right, i, i + 1)).data[0]
  {
    CatWidthOfSlices(left, right, i);
  }

  /** The shapes of the validation test table. */
  lemma ValidationTable<T>(left: Batch<T>, right: Batch<T>)
    requires left.Valid() && right.Valid()
    requires left.shape == Shape(2, 100, 200, 3)
    ensures right.shape == Shape(2, 100, 200, 3) ==>
              Concatenated(left, right).Ok? && Concatenated(left, right).value.shape == Shape(2, 100, 400, 3)
    ensures right.shape == Shape(3, 100, 200, 3) ==> Concatenated(left, right) == Err(ValueError(MismatchMessage))
    ensures right.shape == Shape(2, 150, 200, 3) ==> Concatenated(left, right) == Err(ValueError(MismatchMessage))
    ensures right.shape == Shape(2, 100, 200, 4) ==> Concatenated(left, right) == Err(ValueError(MismatchMessage))
    ensures right.shape == Shape(2, 100, 300, 3) ==>
              Concatenated(left, right).Ok? && Concatenated(left, right).value.shape == Shape(2, 100, 500, 3)
  {
  }
}
