# VideoGrid concatenation nodes in Dafny

This project models the two nodes of the ComfyUI-VideoGrid plugin:
`VideosConcateHorizontal` and `VideosConcateVertical`. Each node takes two
image batches, that is, two videos. A batch is a four-dimensional tensor laid
out as (frames, height, width, channels). The node checks that the axes it
needs to agree do agree. It then joins frame `i` of one batch to frame `i`
of the other, for every `i` in order, and stacks the joined frames into one
batch.

- `tensor.dfy` (module `Tensor`) holds the batch type and the tensor
  operations the nodes call.
  - `Batch<T>` pairs a `Shape` with the samples as
    `seq<seq<seq<seq<T>>>>`. `Valid()` says the samples are a dense block of
    that shape. The shape is kept even when an axis is empty, as a tensor
    keeps it.
  - `SliceFrames` is `b[i:j]`, with Python's clamping of the bounds.
  - `CatWidth` is `torch.cat(..., dim=2)`, `CatHeight` is
    `torch.cat(..., dim=1)` and `CatFrames` is `torch.cat(..., dim=0)`.
  - `CropWidth`, `CropHeight` and `Transpose` are the partner operations
    used to state the round-trip and duality lemmas.
- `horizontal.dfy` (module `VideosConcateHorizontal`) and `vertical.dfy`
  (module `VideosConcateVertical`) hold one node each.
  - `Concatenated` states on whole batches what a call returns: the shape
    check, then one bulk concatenation.
  - `ConcateVideos` is `concate_videos` itself. It has the same check, the
    same per-frame loop that appends to `resultFrames`, and the same final
    stack. It is proved to return exactly `Concatenated`.

Sample values are an opaque type `T`: the nodes only move them.

Both exceptions of a call are outcomes of a `Result`:
- `ValueError` carries the node's own message, verbatim.
- `EmptyTensorList` stands for the error `torch.cat` raises at
  `nodes.py:65` / `nodes.py:127` when the frame count is 0: the loop then
  leaves `result_frames` empty, and concatenating an empty list fails
  instead of returning an empty batch.
The shape check runs first, so a mismatch is always reported as
`ValueError`, and a failing call returns no batch at all.

The inputs are values, so no call can change them. Calling a node twice on
the same inputs gives the same result because `Concatenated` is a function.

Two behaviours of the code are worth stating plainly:
- Each node raises one fixed message, whichever axis differs. The message
  does not say which axis it was.
- An empty pair of batches is not concatenated into an empty batch. The call
  fails, as described above.

## Model

| member | source | states |
|---|---|---|
| `VideosConcateHorizontal.Concatenated` | src/comfyui_videogrid/nodes.py:41-65 | Fails with the node's ValueError exactly when frame count, height or channels differ (width is free); fails with the empty-list error exactly when they agree and there are no frames; succeeds exactly when they agree and there is at least one frame, and then the result has shape (N, H, W_left + W_right, C) and `out[i][y][x][c]` is `left[i][y][x][c]` for `x < W_left`, else `right[i][y][x - W_left][c]` |
| `VideosConcateHorizontal.Compatible` | src/comfyui_videogrid/nodes.py:42 | The check accepts exactly the pairs whose shapes are equal once the width is set aside: frame count, height and channels must agree, the width is free |
| `VideosConcateHorizontal.StackedJoinedFrames` | src/comfyui_videogrid/nodes.py:54-65 | For a pair that passes the check, the node's result is the frame-axis concatenation of the loop's whole list of joined frames, and that list can be concatenated |
| `VideosConcateHorizontal.ConcateVideos` | src/comfyui_videogrid/nodes.py:31-68 | The check, the per-frame loop and the final stack return exactly `Concatenated`; the loop invariant says that after `k` rounds `resultFrames` is `JoinedWidthFrames(left, right, k)`, the list whose part `j` is `left[j:j+1]` and `right[j:j+1]` joined along the width |
| `VideosConcateHorizontal.SplitGivesInputsBack` | src/comfyui_videogrid/nodes.py:54-65 | Cropping a successful result at columns `[0, W_left)` gives the left batch back and at `[W_left, W_left + W_right)` the right batch back |
| `VideosConcateHorizontal.FrameOrderKept` | src/comfyui_videogrid/nodes.py:52-65 | Frame `i` of a successful result is the join of `left[i:i+1]` and `right[i:i+1]`: frame order is kept |
| `VideosConcateHorizontal.ValidationTable` | tests/test_comfyui_videogrid.py:59-89 | The five shape pairs of the horizontal validation test: success with width 400 and 500, ValueError for differing frames, height or channels |
| `VideosConcateVertical.Concatenated` | src/comfyui_videogrid/nodes.py:103-127 | Fails with the node's ValueError exactly when frame count, width or channels differ (height is free); fails with the empty-list error exactly when they agree and there are no frames; succeeds exactly when they agree and there is at least one frame, and then the result has shape (N, H_top + H_bottom, W, C) and `out[i][y][x][c]` is `top[i][y][x][c]` for `y < H_top`, else `bottom[i][y - H_top][x][c]` |
| `VideosConcateVertical.Compatible` | src/comfyui_videogrid/nodes.py:104 | The check accepts exactly the pairs whose shapes are equal once the height is set aside: frame count, width and channels must agree, the height is free |
| `VideosConcateVertical.StackedJoinedFrames` | src/comfyui_videogrid/nodes.py:116-127 | For a pair that passes the check, the node's result is the frame-axis concatenation of the loop's whole list of joined frames, and that list can be concatenated |
| `VideosConcateVertical.ConcateVideos` | src/comfyui_videogrid/nodes.py:93-130 | The check, the per-frame loop and the final stack return exactly `Concatenated`; the loop invariant says that after `k` rounds `resultFrames` is `JoinedHeightFrames(top, bottom, k)`, the list whose part `j` is `top[j:j+1]` and `bottom[j:j+1]` joined along the height |
| `VideosConcateVertical.SplitGivesInputsBack` | src/comfyui_videogrid/nodes.py:116-127 | Cropping a successful result at rows `[0, H_top)` gives the top batch back and at `[H_top, H_top + H_bottom)` the bottom batch back |
| `VideosConcateVertical.FrameOrderKept` | src/comfyui_videogrid/nodes.py:114-127 | Frame `i` of a successful result is the join of `top[i:i+1]` and `bottom[i:i+1]`: frame order is kept |
| `VideosConcateVertical.TransposedHorizontal` | src/comfyui_videogrid/nodes.py:104-122 | The vertical node is the horizontal node with height and width swapped: with both inputs transposed, the horizontal node succeeds exactly when the vertical one does, fails on an empty batch exactly when it does, and its result transposed is the vertical result |
| `VideosConcateVertical.TransposedVertical` | src/comfyui_videogrid/nodes.py:42-60 | The converse: the horizontal node is the vertical node with height and width swapped, in the same three senses |
| `VideosConcateVertical.ValidationTable` | tests/test_comfyui_videogrid.py:91-121 | The five shape pairs of the vertical validation test: success with height 200 and 250, ValueError for differing frames, width or channels |
| `Tensor.SliceFrames` | src/comfyui_videogrid/nodes.py:56-57 | `b[i:j]` keeps height, width and channels, has `min(j, N) - i` frames when `i < j` and `i < N` and none otherwise, and its frame `k` is frame `i + k` of `b` |
| `Tensor.CatWidth` | src/comfyui_videogrid/nodes.py:60 | Concatenation along the width: shape (N, H, W_a + W_b, C), pixel `x` taken from `a` below `W_a` and from `b` at `x - W_a` otherwise |
| `Tensor.CatHeight` | src/comfyui_videogrid/nodes.py:122 | Concatenation along the height: shape (N, H_a + H_b, W, C), row `y` taken from `a` below `H_a` and from `b` at `y - H_a` otherwise |
| `Tensor.CatFrames` | src/comfyui_videogrid/nodes.py:65 | Concatenation along the frames takes parts that agree on height, width and channels (`Stackable`); it fails exactly on an empty list; otherwise it is a valid batch with the shared height, width and channels, as many frames as all parts together, and the parts' frames in list order |
| `Tensor.StackedFramesShaped` | src/comfyui_videogrid/nodes.py:65 | Stacking parts of one frame shape gives as many frames as the parts hold together, each of that shape |
| `Tensor.CatFramesRebuilds` | src/comfyui_videogrid/nodes.py:65 | Stacking parts whose frames, taken together, are the frames of a non-empty batch gives exactly that batch |
| `Tensor.CatHeightIsTransposedCatWidth` | src/comfyui_videogrid/nodes.py:122 | Concatenation along the height equals concatenation along the width of the transposed batches, transposed back |
| `Tensor.CatWidthOfSlices` | src/comfyui_videogrid/nodes.py:54-62 | Joining `a[i:i+1]` and `b[i:i+1]` along the width gives exactly frame `i` of the bulk width join |
| `Tensor.JoinedWidthFramesAt` | src/comfyui_videogrid/nodes.py:54-61 | The loop's list after `n` rounds has `n` parts, and part `k` is `CatWidth(a[k:k+1], b[k:k+1])` |
| `Tensor.JoinedWidthFramesShaped` | src/comfyui_videogrid/nodes.py:54-61 | Every part of the loop's list is a valid one-frame batch of height H, width W_a + W_b and C channels |
| `Tensor.JoinedWidthFramesStack` | src/comfyui_videogrid/nodes.py:54-65 | The frames of the loop's list after `n` rounds, taken in order, are the first `n` frames of the bulk width join |
| `Tensor.JoinedWidthFramesCat` | src/comfyui_videogrid/nodes.py:54-65 | Concatenating the loop's whole list along the frames gives the bulk width join, or the empty-list error when there are no frames |
| `Tensor.JoinedHeightFramesAt` | src/comfyui_videogrid/nodes.py:116-123 | The loop's list after `n` rounds has `n` parts, and part `k` is `CatHeight(a[k:k+1], b[k:k+1])` |
| `Tensor.JoinedHeightFramesShaped` | src/comfyui_videogrid/nodes.py:116-123 | Every part of the loop's list is a valid one-frame batch of height H_a + H_b, width W and C channels |
| `Tensor.JoinedHeightFramesStack` | src/comfyui_videogrid/nodes.py:116-127 | The frames of the loop's list after `n` rounds, taken in order, are the first `n` frames of the bulk height join |
| `Tensor.JoinedHeightFramesCat` | src/comfyui_videogrid/nodes.py:116-127 | Concatenating the loop's whole list along the frames gives the bulk height join, or the empty-list error when there are no frames |
| `Tensor.CatHeightOfSlices` | src/comfyui_videogrid/nodes.py:116-124 | Joining `a[i:i+1]` and `b[i:i+1]` along the height gives exactly frame `i` of the bulk height join |

## Left out

- Conversion of non-tensor inputs with `torch.from_numpy` (`nodes.py:36-39`, `nodes.py:98-101`): a foreign type coercion. Inputs are batches already.
- Inputs of rank other than 4: `Batch` is four-dimensional by construction. So the `IndexError` that `shape[3]` would raise on a lower-rank tensor is not modelled.
- Element types and dtype promotion in `torch.cat`: both inputs hold samples of the one type `T`.
- Devices: `torch.cat` raises `RuntimeError` when its inputs live on different devices (`nodes.py:60`, `65`, `122`, `127`). Batches here carry no device, so that error is not modelled.
- The shape errors `torch.cat` raises itself when the non-joined axes differ. `CatWidth`, `CatHeight` and `CatFrames` require those axes to agree, and the node's own check always ensures this before they are called.
- Tensor views: the slices `images_left[i:i+1]` and `images_right[i:i+1]` (`nodes.py:56-57`, `118-119`) are views that share memory with the inputs; the model treats them as copies. `torch.cat` always allocates a new tensor, so the node's output shares no memory with its inputs, and treating it as a fresh value loses nothing.
- Progress reporting through `ProgressBar` and `pbar.update` (`nodes.py:53`, `62`, `115`, `124`): host UI telemetry with no effect on the result.
- The `print` diagnostics (`nodes.py:46-48`, `67`, `108-110`, `129`): output only.
- Node registration metadata: `INPUT_TYPES`, `RETURN_TYPES`, `CATEGORY`, the mapping tables (`nodes.py:12-29`, `77-91`, `132-140`), `__init__.py`, and the metadata tests.
