/** Four-dimensional frame batches, laid out as (frames, height, width,
    channels), and the few tensor operations the two concatenation nodes use:
    slicing along the frame axis, and concatenation along the frame, height
    and width axes. Sample values are an opaque type `T`: the nodes only move
    them, never compute with them. */
module Tensor {

  /** The extent of each axis of a batch. */
  datatype Shape = Shape(frames: nat, height: nat, width: nat, channels: nat)

  type Pixel<T> = seq<T>       // one sample per channel
  type Row<T> = seq<Pixel<T>>  // one pixel per column
  type Frame<T> = seq<Row<T>>  // one row per line

  /** `f` is a height x width x channels block. */
  predicate FrameHasShape<T>(f: Frame<T>, height: nat, width: nat, channels: nat)
  {
    && |f| == height
    && forall y :: 0 <= y < height ==>
         && |f[y]| == width
         && forall x :: 0 <= x < width ==> |f[y][x]| == channels
  }

  /** A batch carries its shape alongside its samples, as a tensor does, so
      that the extents of the inner axes are known even when an outer axis is
      empty. */
  datatype Batch<T> = Batch(shape: Shape, data: seq<Frame<T>>)
  {
    /** The samples form a dense block of exactly `shape`. */
    predicate Valid()
    {
      && |data| == shape.frames
      && forall i :: 0 <= i < |data| ==>
           FrameHasShape(data[i], shape.height, shape.width, shape.channels)
    }
  }

  /** The two exceptions a call can raise: the node's own ValueError, and the
      error the final frame-axis concatenation raises on an empty list. */
  datatype Error = ValueError(message: string) | EmptyTensorList

  datatype Result<R> = Ok(value: R) | Err(error: Error)

  function Min(a: nat, b: nat): nat
  {
    if a <= b then a else b
  }

  /** `b[i:j]` for non-negative `i` and `j`: both bounds are clamped to the
      frame count, and a stop before the start gives no frames. */
  function SliceFrames<T>(b: Batch<T>, i: nat, j: nat): (r: Batch<T>)
    requires b.Valid()
    ensures r.Valid()
    ensures r.shape == b.shape.(frames := r.shape.frames)
    ensures r.shape.frames == if i < j && i < b.shape.frames then Min(j, b.shape.frames) - i else 0
    ensures forall k :: 0 <= k < r.shape.frames ==> r.data[k] == b.data[i + k]
  {
    var hi := Min(j, b.shape.frames);
    var lo := Min(i, hi);
    Batch(b.shape.(frames := hi - lo), b.data[lo..hi])
  }

  /** `torch.cat([a, b], dim=2)`: every row of `a` is extended by the row of
      `b` at the same frame and height. The two batches must agree on every
      axis except the width. */
  function CatWidth<T>(a: Batch<T>, b: Batch<T>): (r: Batch<T>)
    requires a.Valid() && b.Valid()
    requires a.shape.frames == b.shape.frames
    requires a.shape.height == b.shape.height
    requires a.shape.channels == b.shape.channels
    ensures r.Valid()
    ensures r.shape == a.shape.(width := a.shape.width + b.shape.width)
    ensures forall i, y, x :: 0 <= i < r.shape.frames && 0 <= y < r.shape.height && 0 <= x < r.shape.width ==>
              r.data[i][y][x] == if x < a.shape.width then a.data[i][y][x] else b.data[i][y][x - a.shape.width]
  {
    Batch(a.shape.(width := a.shape.width + b.shape.width),
          seq(a.shape.frames, i requires 0 <= i < a.shape.frames =>
            seq(a.shape.height, y requires 0 <= y < a.shape.height => a.data[i][y] + b.data[i][y])))
  }

  /** `torch.cat([a, b], dim=1)`: the rows of `b`'s frame are placed below
      the rows of `a`'s frame. The two batches must agree on every axis except
      the height. */
  function CatHeight<T>(a: Batch<T>, b: Batch<T>): (r: Batch<T>)
    requires a.Valid() && b.Valid()
    requires a.shape.frames == b.shape.frames
    requires a.shape.width == b.shape.width
    requires a.shape.channels == b.shape.channels
    ensures r.Valid()
    ensures r.shape == a.shape.(height := a.shape.height + b.shape.height)
    ensures forall i, y :: 0 <= i < r.shape.frames && 0 <= y < r.shape.height ==>
              r.data[i][y] == if y < a.shape.height then a.data[i][y] else b.data[i][y - a.shape.height]
  {
    Batch(a.shape.(height := a.shape.height + b.shape.height),
          seq(a.shape.frames, i requires 0 <= i < a.shape.frames => a.data[i] + b.data[i]))
  }

  /** Every part is a valid batch whose frames are height x width x channels. */
  predicate PartsShaped<T>(parts: seq<Batch<T>>, height: nat, width: nat, channels: nat)
  {
    forall k :: 0 <= k < |parts| ==>
      && parts[k].Valid()
      && parts[k].shape.height == height
      && parts[k].shape.width == width
      && parts[k].shape.channels == channels
  }

  /** The sum of the parts' frame counts. */
  function TotalFrames<T>(parts: seq<Batch<T>>): nat
  {
    if parts == [] then 0 else TotalFrames(parts[..|parts| - 1]) + parts[|parts| - 1].shape.frames
  }

  /** The frames of all parts, part after part. */
  function StackedFrames<T>(parts: seq<Batch<T>>): seq<Frame<T>>
  {
    if parts == [] then [] else StackedFrames(parts[..|parts| - 1]) + parts[|parts| - 1].data
  }

  lemma {:induction false} StackedFramesShaped<T>(parts: seq<Batch<T>>, height: nat, width: nat, channels: nat)
    requires PartsShaped(parts, height, width, channels)
    ensures |StackedFrames(parts)| == TotalFrames(parts)
    ensures forall i :: 0 <= i < |StackedFrames(parts)| ==>
              FrameHasShape(StackedFrames(parts)[i], height, width, channels)
  {
    if parts != [] {
      var init := parts[..|parts| - 1];
      assert PartsShaped(init, height, width, channels) by {
        forall k | 0 <= k < |init| ensures init[k] == parts[k] { }
      }
      StackedFramesShaped(init, height, width, channels);
    }
  }

  /** The parts are valid batches that agree with the first one on height,
      width and channels. An empty list qualifies. */
  predicate Stackable<T>(parts: seq<Batch<T>>)
  {
    parts != [] ==> PartsShaped(parts, parts[0].shape.height, parts[0].shape.width, parts[0].shape.channels)
  }

  /** `torch.cat(parts, dim=0)`: all frames of all parts, in list order. The
      parts must agree on height, width and channels; an empty list is an
      error. */
  function CatFrames<T>(parts: seq<Batch<T>>): (r: Result<Batch<T>>)
    requires Stackable(parts)
    ensures r.Err? <==> parts == []
    ensures r.Err? ==> r.error == EmptyTensorList
    ensures r.Ok? ==> r.value.Valid()
    ensures r.Ok? ==> r.value.shape == parts[0].shape.(frames := TotalFrames(parts))
    ensures r.Ok? ==> r.value.data == StackedFrames(parts)
  {
    if parts == [] then Err(EmptyTensorList)
    else
      var s := parts[0].shape;
      StackedFramesShaped(parts, s.height, s.width, s.channels);
      Ok(Batch(s.(frames := TotalFrames(parts)), StackedFrames(parts)))
  }

  /** Stacking parts whose frames, taken together, are exactly the frames
      of a non-empty batch `whole` gives `whole` back. */
  lemma CatFramesRebuilds<T>(parts: seq<Batch<T>>, whole: Batch<T>)
    requires whole.Valid() && whole.shape.frames > 0
    requires PartsShaped(parts, whole.shape.height, whole.shape.width, whole.shape.channels)
    requires StackedFrames(parts) == whole.data
    ensures CatFrames(parts) == Ok(whole)
  {
    assert parts != [];
    StackedFramesShaped(parts, whole.shape.height, whole.shape.width, whole.shape.channels);
  }

  /** Joining frame `i` of `a` and `b` on their own gives frame `i` of the
      join of the whole batches: joining frame by frame and joining in bulk
      agree. */
  lemma CatWidthOfSlices<T>(a: Batch<T>, b: Batch<T>, i: nat)
    requires a.Valid() && b.Valid()
    requires a.shape.frames == b.shape.frames
    requires a.shape.height == b.shape.height
    requires a.shape.channels == b.shape.channels
    requires i < a.shape.frames
    ensures CatWidth(SliceFrames(a, i, i + 1), SliceFrames(b, i, i + 1)).data == [CatWidth(a, b).data[i]]
  {
    var joined := CatWidth(SliceFrames(a, i, i + 1), SliceFrames(b, i, i + 1));
    var whole := CatWidth(a, b);
    assert joined.data[0] == whole.data[i];
  }

  /** The same for the height axis. */
  lemma CatHeightOfSlices<T>(a: Batch<T>, b: Batch<T>, i: nat)
    requires a.Valid() && b.Valid()
    requires a.shape.frames == b.shape.frames
    requires a.shape.width == b.shape.width
    requires a.shape.channels == b.shape.channels
    requires i < a.shape.frames
    ensures CatHeight(SliceFrames(a, i, i + 1), SliceFrames(b, i, i + 1)).data == [CatHeight(a, b).data[i]]
  {
    var joined := CatHeight(SliceFrames(a, i, i + 1), SliceFrames(b, i, i + 1));
    var whole := CatHeight(a, b);
    assert joined.data[0] == whole.data[i];
  }

  /** Appending a part of the shared frame shape keeps the parts shaped. */
  lemma PartsShapedAppend<T>(parts: seq<Batch<T>>, p: Batch<T>, height: nat, width: nat, channels: nat)
    requires PartsShaped(parts, height, width, channels)
    requires p.Valid() && p.shape.height == height && p.shape.width == width && p.shape.channels == channels
    ensures PartsShaped(parts + [p], height, width, channels)
  {
  }

  /** Taking one more element of a sequence appends that element. */
  lemma TakeOneMore<X>(s: seq<X>, n: nat)
    requires n < |s|
    ensures s[..n] + [s[n]] == s[..n + 1]
  {
  }

  /** Appending one part extends the stacked frames by that part's frames. */
  lemma StackedFramesAppend<T>(parts: seq<Batch<T>>, p: Batch<T>)
    ensures StackedFrames(parts + [p]) == StackedFrames(parts) + p.data
  {
    assert (parts + [p])[..|parts|] == parts;
  }

  /** `a` and `b` are valid batches that agree on every axis but the width,
      so they can be joined along the width. */
  predicate WidthJoinable<T>(a: Batch<T>, b: Batch<T>)
  {
    && a.Valid()
    && b.Valid()
    && a.shape.frames == b.shape.frames
    && a.shape.height == b.shape.height
    && a.shape.channels == b.shape.channels
  }

  /** The list the width-joining loop has built after `n` rounds: round `k`
      appends the join of the one-frame slices `a[k:k+1]` and `b[k:k+1]`. */
  function JoinedWidthFrames<T>(a: Batch<T>, b: Batch<T>, n: nat): seq<Batch<T>>
    requires WidthJoinable(a, b)
    requires n <= a.shape.frames
  {
    if n == 0 then []
    else JoinedWidthFrames(a, b, n - 1) + [CatWidth(SliceFrames(a, n - 1, n), SliceFrames(b, n - 1, n))]
  }

  /** One round of the loop appends the join of the next one-frame slices. */
  lemma JoinedWidthFramesNext<T>(a: Batch<T>, b: Batch<T>, i: nat)
    requires WidthJoinable(a, b)
    requires i < a.shape.frames
    ensures JoinedWidthFrames(a, b, i + 1) ==
              JoinedWidthFrames(a, b, i) + [CatWidth(SliceFrames(a, i, i + 1), SliceFrames(b, i, i + 1))]
  {
  }

  /** Part `k` of the list is the join of frame `k` of both batches. */
  lemma {:induction false} JoinedWidthFramesAt<T>(a: Batch<T>, b: Batch<T>, n: nat, k: nat)
    requires WidthJoinable(a, b)
    requires k < n <= a.shape.frames
    ensures |JoinedWidthFrames(a, b, n)| == n
    ensures JoinedWidthFrames(a, b, n)[k] == CatWidth(SliceFrames(a, k, k + 1), SliceFrames(b, k, k + 1))
  {
    if k < n - 1 {
      JoinedWidthFramesAt(a, b, n - 1, k);
    } else if n > 1 {
      JoinedWidthFramesAt(a, b, n - 1, 0);
    }
  }

  /** Every part of the list is a valid batch of the joined frame shape. */
  lemma {:induction false} JoinedWidthFramesShaped<T>(a: Batch<T>, b: Batch<T>, n: nat)
    requires WidthJoinable(a, b)
    requires n <= a.shape.frames
    ensures PartsShaped(JoinedWidthFrames(a, b, n), a.shape.height, a.shape.width + b.shape.width, a.shape.channels)
  {
    if n > 0 {
      JoinedWidthFramesShaped(a, b, n - 1);
      PartsShapedAppend(JoinedWidthFrames(a, b, n - 1),
                        CatWidth(SliceFrames(a, n - 1, n), SliceFrames(b, n - 1, n)),
                        a.shape.height, a.shape.width + b.shape.width, a.shape.channels);
    }
  }

  /** Stacked, the list is the first `n` frames of the bulk join. */
  lemma {:induction false} JoinedWidthFramesStack<T>(a: Batch<T>, b: Batch<T>, n: nat)
    requires WidthJoinable(a, b)
    requires n <= a.shape.frames
    ensures StackedFrames(JoinedWidthFrames(a, b, n)) == CatWidth(a, b).data[..n]
  {
    if n > 0 {
      var joined := CatWidth(SliceFrames(a, n - 1, n), SliceFrames(b, n - 1, n));
      JoinedWidthFramesStack(a, b, n - 1);
      StackedFramesAppend(JoinedWidthFrames(a, b, n - 1), joined);
      CatWidthOfSlices(a, b, n - 1);
      TakeOneMore(CatWidth(a, b).data, n - 1);
    }
  }

  /** Stacking the whole list of joined frames is the bulk join of the two
      batches, or the empty-list error when they hold no frames. */
  lemma JoinedWidthFramesCat<T>(a: Batch<T>, b: Batch<T>)
    requires WidthJoinable(a, b)
    ensures PartsShaped(JoinedWidthFrames(a, b, a.shape.frames), a.shape.height, a.shape.width + b.shape.width, a.shape.channels)
    ensures CatFrames(JoinedWidthFrames(a, b, a.shape.frames)) ==
              if a.shape.frames == 0 then Err(EmptyTensorList) else Ok(CatWidth(a, b))
  {
    var n := a.shape.frames;
    JoinedWidthFramesShaped(a, b, n);
    if n > 0 {
      var whole := CatWidth(a, b);
      JoinedWidthFramesStack(a, b, n);
      assert whole.data[..n] == whole.data;
      CatFramesRebuilds(JoinedWidthFrames(a, b, n), whole);
    }
  }

  /** `a` and `b` are valid batches that agree on every axis but the height,
      so they can be joined along the height. */
  predicate HeightJoinable<T>(a: Batch<T>, b: Batch<T>)
  {
    && a.Valid()
    && b.Valid()
    && a.shape.frames == b.shape.frames
    && a.shape.width == b.shape.width
    && a.shape.channels == b.shape.channels
  }

  /** The list the height-joining loop has built after `n` rounds: round `k`
      appends the join of the one-frame slices `a[k:k+1]` and `b[k:k+1]`. */
  function JoinedHeightFrames<T>(a: Batch<T>, b: Batch<T>, n: nat): seq<Batch<T>>
    requires HeightJoinable(a, b)
    requires n <= a.shape.frames
  {
    if n == 0 then []
    else JoinedHeightFrames(a, b, n - 1) + [CatHeight(SliceFrames(a, n - 1, n), SliceFrames(b, n - 1, n))]
  }

  /** One round of the loop appends the join of the next one-frame slices. */
  lemma JoinedHeightFramesNext<T>(a: Batch<T>, b: Batch<T>, i: nat)
    requires HeightJoinable(a, b)
    requires i < a.shape.frames
    ensures JoinedHeightFrames(a, b, i + 1) ==
              JoinedHeightFrames(a, b, i) + [CatHeight(SliceFrames(a, i, i + 1), SliceFrames(b, i, i + 1))]
  {
  }

  /** Part `k` of the list is the join of frame `k` of both batches. */
  lemma {:induction false} JoinedHeightFramesAt<T>(a: Batch<T>, b: Batch<T>, n: nat, k: nat)
    requires HeightJoinable(a, b)
    requires k < n <= a.shape.frames
    ensures |JoinedHeightFrames(a, b, n)| == n
    ensures JoinedHeightFrames(a, b, n)[k] == CatHeight(SliceFrames(a, k, k + 1), SliceFrames(b, k, k + 1))
  {
    if k < n - 1 {
      JoinedHeightFramesAt(a, b, n - 1, k);
    } else if n > 1 {
      JoinedHeightFramesAt(a, b, n - 1, 0);
    }
  }

  /** Every part of the list is a valid batch of the joined frame shape. */
  lemma {:induction false} JoinedHeightFramesShaped<T>(a: Batch<T>, b: Batch<T>, n: nat)
    requires HeightJoinable(a, b)
    requires n <= a.shape.frames
    ensures PartsShaped(JoinedHeightFrames(a, b, n), a.shape.height + b.shape.height, a.shape.width, a.shape.channels)
  {
    if n > 0 {
      JoinedHeightFramesShaped(a, b, n - 1);
      PartsShapedAppend(JoinedHeightFrames(a, b, n - 1),
                        CatHeight(SliceFrames(a, n - 1, n), SliceFrames(b, n - 1, n)),
                        a.shape.height + b.shape.height, a.shape.width, a.shape.channels);
    }
  }

  /** Stacked, the list is the first `n` frames of the bulk join. */
  lemma {:induction false} JoinedHeightFramesStack<T>(a: Batch<T>, b: Batch<T>, n: nat)
    requires HeightJoinable(a, b)
    requires n <= a.shape.frames
    ensures StackedFrames(JoinedHeightFrames(a, b, n)) == CatHeight(a, b).data[..n]
  {
    if n > 0 {
      var joined := CatHeight(SliceFrames(a, n - 1, n), SliceFrames(b, n - 1, n));
      JoinedHeightFramesStack(a, b, n - 1);
      StackedFramesAppend(JoinedHeightFrames(a, b, n - 1), joined);
      CatHeightOfSlices(a, b, n - 1);
      TakeOneMore(CatHeight(a, b).data, n - 1);
    }
  }

  /** Stacking the whole list of joined frames is the bulk join of the two
      batches, or the empty-list error when they hold no frames. */
  lemma JoinedHeightFramesCat<T>(a: Batch<T>, b: Batch<T>)
    requires HeightJoinable(a, b)
    ensures PartsShaped(JoinedHeightFrames(a, b, a.shape.frames), a.shape.height + b.shape.height, a.shape.width, a.shape.channels)
    ensures CatFrames(JoinedHeightFrames(a, b, a.shape.frames)) ==
              if a.shape.frames == 0 then Err(EmptyTensorList) else Ok(CatHeight(a, b))
  {
    var n := a.shape.frames;
    JoinedHeightFramesShaped(a, b, n);
    if n > 0 {
      var whole := CatHeight(a, b);
      JoinedHeightFramesStack(a, b, n);
      assert whole.data[..n] == whole.data;
      CatFramesRebuilds(JoinedHeightFrames(a, b, n), whole);
    }
  }

  /** `b[:, :, lo:hi]`: the columns `lo` up to `hi` of every row. */
  function CropWidth<T>(b: Batch<T>, lo: nat, hi: nat): (r: Batch<T>)
    requires b.Valid()
    requires lo <= hi <= b.shape.width
    ensures r.Valid()
    ensures r.shape == b.shape.(width := hi - lo)
    ensures forall i, y, x :: 0 <= i < r.shape.frames && 0 <= y < r.shape.height && 0 <= x < r.shape.width ==>
              r.data[i][y][x] == b.data[i][y][lo + x]
  {
    Batch(b.shape.(width := hi - lo),
          seq(b.shape.frames, i requires 0 <= i < b.shape.frames =>
            seq(b.shape.height, y requires 0 <= y < b.shape.height => b.data[i][y][lo..hi])))
  }

  /** `b[:, lo:hi]`: the rows `lo` up to `hi` of every frame. */
  function CropHeight<T>(b: Batch<T>, lo: nat, hi: nat): (r: Batch<T>)
    requires b.Valid()
    requires lo <= hi <= b.shape.height
    ensures r.Valid()
    ensures r.shape == b.shape.(height := hi - lo)
    ensures forall i, y :: 0 <= i < r.shape.frames && 0 <= y < r.shape.height ==>
              r.data[i][y] == b.data[i][lo + y]
  {
    Batch(b.shape.(height := hi - lo),
          seq(b.shape.frames, i requires 0 <= i < b.shape.frames => b.data[i][lo..hi]))
  }

  /** `b.transpose(1, 2)`: height and width swap places. */
  function Transpose<T>(b: Batch<T>): (r: Batch<T>)
    requires b.Valid()
    ensures r.Valid()
    ensures r.shape == b.shape.(height := b.shape.width, width := b.shape.height)
    ensures forall i, x, y :: 0 <= i < r.shape.frames && 0 <= x < r.shape.height && 0 <= y < r.shape.width ==>
              r.data[i][x][y] == b.data[i][y][x]
  {
    Batch(b.shape.(height := b.shape.width, width := b.shape.height),
          seq(b.shape.frames, i requires 0 <= i < b.shape.frames =>
            seq(b.shape.width, x requires 0 <= x < b.shape.width =>
              seq(b.shape.height, y requires 0 <= y < b.shape.height => b.data[i][y][x]))))
  }

  /** Two valid batches of the same shape are equal when they agree pixel by
      pixel. */
  lemma SamePixels<T>(a: Batch<T>, b: Batch<T>)
    requires a.Valid() && b.Valid() && a.shape == b.shape
    requires forall i, y, x :: 0 <= i < a.shape.frames && 0 <= y < a.shape.height && 0 <= x < a.shape.width ==>
               a.data[i][y][x] == b.data[i][y][x]
    ensures a == b
  {
    forall i | 0 <= i < a.shape.frames ensures a.data[i] == b.data[i] {
      forall y | 0 <= y < a.shape.height ensures a.data[i][y] == b.data[i][y] { }
    }
  }

  /** Transposing twice gives back the batch. */
  lemma TransposeTwice<T>(b: Batch<T>)
    requires b.Valid()
    ensures Transpose(Transpose(b)) == b
  {
    SamePixels(Transpose(Transpose(b)), b);
  }

  /** Concatenating along the height is concatenating along the width with
      height and width swapped on both sides. */
  lemma CatHeightIsTransposedCatWidth<T>(a: Batch<T>, b: Batch<T>)
    requires a.Valid() && b.Valid()
    requires a.shape.frames == b.shape.frames
    requires a.shape.width == b.shape.width
    requires a.shape.channels == b.shape.channels
    ensures CatHeight(a, b) == Transpose(CatWidth(Transpose(a), Transpose(b)))
  {
    var v, t := CatHeight(a, b), Transpose(CatWidth(Transpose(a), Transpose(b)));
    forall i, y, x | 0 <= i < v.shape.frames && 0 <= y < v.shape.height && 0 <= x < v.shape.width
      ensures v.data[i][y][x] == t.data[i][y][x]
    {
      if y < a.shape.height {
        TransposedPixelTop(a, b, i, y, x);
      } else {
        TransposedPixelBottom(a, b, i, y - a.shape.height, x);
      }
    }
    SamePixels(v, t);
  }

  /** A pixel of the identity above that comes from `a`. */
  lemma TransposedPixelTop<T>(a: Batch<T>, b: Batch<T>, i: nat, y: nat, x: nat)
    requires a.Valid() && b.Valid()
    requires a.shape.frames == b.shape.frames
    requires a.shape.width == b.shape.width
    requires a.shape.channels == b.shape.channels
    requires i < a.shape.frames && y < a.shape.height && x < a.shape.width
    ensures Transpose(CatWidth(Transpose(a), Transpose(b))).data[i][y][x] == a.data[i][y][x]
  {
    var w := CatWidth(Transpose(a), Transpose(b));
    assert Transpose(w).data[i][y][x] == w.data[i][x][y];
    assert w.data[i][x][y] == Transpose(a).data[i][x][y];
  }

  /** A pixel of the identity above that comes from row `y` of `b`. */
  lemma TransposedPixelBottom<T>(a: Batch<T>, b: Batch<T>, i: nat, y: nat, x: nat)
    requires a.Valid() && b.Valid()
    requires a.shape.frames == b.shape.frames
    requires a.shape.width == b.shape.width
    requires a.shape.channels == b.shape.channels
    requires i < a.shape.frames && y < b.shape.height && x < a.shape.width
    ensures Transpose(CatWidth(Transpose(a), Transpose(b))).data[i][a.shape.height + y][x] == b.data[i][y][x]
  {
    var w := CatWidth(Transpose(a), Transpose(b));
    assert w.data[i][x][a.shape.height + y] == Transpose(b).data[i][x][y];
  }
}
