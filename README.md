# ARProjection in Dafny

ARProjection is a Unity client for the AR Editor server. It projects the
robot workspace onto a table from a calibrated projector next to an Azure
Kinect camera. This project models its computational core and proves
properties of the model:

- **Calibration loading.** The projector calibration (`CalibrationData`) is
  read from its XML blocks and parsed into matrices. The camera intrinsics
  are fetched from the server under a write lock.
- **Coordinate conversions.** ROS positions and orientations are taken to
  the Unity ground plane and the projection canvas. The code has two
  revisions of `ProjectionCoordConversion` and a `KinectCoordConversion`.
  Only the Utils revision corrects lens distortion, with the Brown–Conrady
  (OpenCV) polynomial; the ARClasses revision returns the point unchanged.
  The projector is placed from `cameraToWorld · Rotation · Translate(Translation)`.
- **Rigid-transform points.** The prototype `DataManager` keeps a list of
  points that follow `R·location + t` as they move.
- **Scene and project bookkeeping.** This covers:
  - the registry of object types, with the walk up the `Base` chain;
  - the scene's table of action objects and the project's table of action
    points;
  - the synchronisation of the action points, parent first, from the
    project the server sends;
  - the orientations and joints of an action point, with free-name
    generation ("default", "default_1", …);
  - the application's delayed-open state machine;
  - the model, scale, colour and position selection of each action-object
    and action-point variant.

Each C# file is one Dafny module, and incompatible revisions of a class stay
separate modules. C# `float` is modelled as `real`. Classes whose fields the
source updates in place are Dafny classes, and pure helpers are functions.
The mutating operations are methods stated against specification functions,
and lemmas prove the source's promises about those functions.

Vectors, matrices and the quaternion are the value types of `Linear`.
`Matrix4x4` is kept as four rows. Unity's `new Matrix4x4(c0, c1, c2, c3)`
takes its vectors as columns, so the calibration's `ProjInt` and `Rotation`
hold the transpose of the file's row-major triples. Their bottom row and
fourth column are (0, 0, 0, 1) either way. `Matrix4x4.MultiplyPoint`
divides by w, and a w of 0 yields the `NonFinite` point, because every float
component would then be infinite or NaN.

The calibration's `ReadMatrixData` calls `Split(' ', '\n',
StringSplitOptions.RemoveEmptyEntries)`. C# binds that call to
`Split(char, int, StringSplitOptions)`, so the newline is the count 10. The
model therefore splits on spaces only, into at most ten pieces, and
`LineSeparatedRotationFails` shows the consequence.

Exceptions are values. `Result` is `Ok(value)` or `Throws(exception)`, and
`Status` is `Done` or `Threw(exception)`, over the exceptions the core
raises:

- `KeyNotFoundException`: dictionary lookups.
- `NullReferenceException`: null members.
- `ArgumentOutOfRangeException`: `List.RemoveAt` and the list indexers.
- `IndexOutOfRangeException`: array indices.
- `ArgumentException`: `Dictionary.Add` with a duplicate key.
- `ItemNotFoundException`: the action-metadata lookup.
- `RequestFailedException`: server requests.

Unity, the server and the other managers are parameters:

- `parse`: `float.TryParse`.
- `Convertor`: `TransformConvertor`.
- `SceneView`: the kinect and its screen projection.
- `Services`: the answers `GameManager`'s collaborators give.
- `Replies`: how each remote call of `GetCameraParameters` ends.

The calls a manager makes into the rest of the application are appended to
a log field, such as `effects` or `projection`.

One precondition comes from the source's own termination conditions:

- **Action-point synchronisation.** Action-point ids must be distinct, and
  distinct from "global" and from the action objects' ids. Without this the
  worklist of `ProjectManager.UpdateActionPoints` need not terminate.

The type registry has no such precondition. `ActionsManager.IsDescendantOfType`
walks up the chain of `Base` links, and when it re-enters an entry it has
passed, the source's recursion repeats forever. The model then answers `None`,
and `ObjectTypeAdded` and `UpdateObjects` end in `StackOverflow`. On a registry
ranked by a ghost `rank` that every link lowers, no walk repeats, and the
answers are stated there more simply.

## Model

| member | source | states |
|---|---|---|
| Linear.SetRow | Assets/Scripts/Classes/DataManager.cs:62-65 | `SetRow(i, v)` replaces row i with v and leaves the other rows. |
| Linear.SetAt | Assets/Scripts/ARClasses/CalibrationData.cs:122-125 | The indexer assignment changes entry (i, j) to a and no other entry. |
| Linear.FromColumns | Assets/Scripts/ARClasses/CalibrationData.cs:91-96 | The four `Vector4`s of the constructor become the columns of the matrix. |
| Linear.Trunc | Assets/Scripts/ARClasses/CalibrationData.cs:89 | The `(int)` cast truncates toward zero: the result is within 1 of x, on the same side of 0. |
| Linear.CsDiv | Assets/Scripts/Utils/ProjectionCoordConversion.cs:48 | C# integer `/` truncates toward zero: the quotient of the magnitudes, negated exactly when dividend and divisor have opposite signs. For a non-negative dividend and a positive divisor it is the Euclidean quotient. |
| Linear.ApplyMul | Assets/Scripts/Utils/ProjectionCoordConversion.cs:34-38 | Applying a product matrix is applying its factors in turn: (a b) v = a (b v). |
| Linear.AffineKeepsW | Assets/Scripts/Utils/ProjectionCoordConversion.cs:34-38 | A matrix with bottom row (0, 0, 0, 1) keeps the homogeneous w of a point at 1. |
| Linear.MulAffine | Assets/Scripts/ARClasses/KinectCoordConversion.cs:15 | The product of two affine matrices is affine. |
| Linear.IdentityNeutral | Assets/Scripts/ARClasses/KinectCoordConversion.cs:15 | The identity matrix is neutral for products and leaves every vector unchanged. |
| ArProjection.ROSToUnityY0 | Assets/Scripts/ARClasses/ProjectionCoordConversion.cs:8-11 | The ground-plane map agrees with the Utils revision's on every point. |
| ArProjection.ManualWorldToScreenPoint | Assets/Scripts/ARClasses/ProjectionCoordConversion.cs:14-37 | Off the focal point and on a camera image of non-zero size, `ClipFromPixel` recovers the clip x/w and y/w from the pixel coordinates. |
| ArProjection.RemoveDistortion | Assets/Scripts/ARClasses/ProjectionCoordConversion.cs:39-42 | This revision's correction returns its argument unchanged, which is what the Utils revision's correction does with every coefficient zero. |
| ArProjection.ROSToUnityY0Ground | Assets/Scripts/ARClasses/ProjectionCoordConversion.cs:8-11 | The ground-plane map is (-y, 0, x): the result lies on y = 0 and the ROS z is ignored. |
| ArProjection.ViewProjectedComposes | Assets/Scripts/ARClasses/ProjectionCoordConversion.cs:19-23 | Multiplying by `projInt * worldToCamera` is projecting the camera-space point with `projInt`. |
| ArProjection.ScreenPointZ | Assets/Scripts/ARClasses/ProjectionCoordConversion.cs:25-35 | The screen point is (0, 0, 0) when the clip w is 0 (guarded branch), and otherwise its z is the input z, unchanged. |
| ArProjection.PixelEdges | Assets/Scripts/ARClasses/ProjectionCoordConversion.cs:33-34 | The remap has its origin in the corner: clip -1 goes to pixel 0, clip 0 to half the size, clip +1 to the size. |
| ArProjection.PixelRemapInverse | Assets/Scripts/ARClasses/ProjectionCoordConversion.cs:33-34 | For a non-zero size the clip-to-pixel remap is a bijection, inverted on both sides by `ClipFromPixel`. |
| ArProjection.PixelMonotone | Assets/Scripts/ARClasses/ProjectionCoordConversion.cs:33-34 | For a positive size the pixel coordinate grows strictly with the clip coordinate. |
| UtilsProjection.ROSToUnityY0 | Assets/Scripts/Utils/ProjectionCoordConversion.cs:8-11 | The result lies on y = 0, and `UnityY0ToROS` takes it back to the ROS point with z dropped. |
| UtilsProjection.ROSToCanvas | Assets/Scripts/Utils/ProjectionCoordConversion.cs:13-17 | `CanvasToROS` takes the canvas orientation back to the ROS one, and the squared norm is kept. |
| UtilsProjection.ROSToCanvasScale | Assets/Scripts/Utils/ProjectionCoordConversion.cs:18-21 | Exchanging x and y of the canvas scale again gives back the ROS scale. |
| UtilsProjection.ManualWorldToScreenPoint | Assets/Scripts/Utils/ProjectionCoordConversion.cs:24-52 | Off the focal point and on a canvas of non-zero size, `ClipFromCanvasX/Y` recover the clip x/w and y/w from the canvas point. |
| UtilsProjection.RemoveDistortion | Assets/Scripts/Utils/ProjectionCoordConversion.cs:53-70 | The optical centre (0, 0) stays at the centre, and all-zero coefficients leave the point unchanged. |
| UtilsProjection.ROSToUnityY0Ground | Assets/Scripts/Utils/ProjectionCoordConversion.cs:8-11 | The result lies on y = 0, the ROS z never matters, and two points map to the same place exactly when their x and y agree. |
| UtilsProjection.ROSToUnityY0RoundTrip | Assets/Scripts/Utils/ProjectionCoordConversion.cs:8-11 | `UnityY0ToROS` undoes the ground-plane map up to the dropped z, and the ground-plane map undoes it up to the dropped y. |
| UtilsProjection.ROSToCanvasScaleInvolution | Assets/Scripts/Utils/ProjectionCoordConversion.cs:18-21 | The scale conversion exchanges x and y and is its own inverse. |
| UtilsProjection.ROSToCanvasQuarterTurn | Assets/Scripts/Utils/ProjectionCoordConversion.cs:13-17 | (x, y, z, w) goes to (y, -x, z, w). This keeps z, w and the squared norm, `CanvasToROS` is its inverse on both sides, two turns negate x and y, and four are the identity. |
| UtilsProjection.ClipPointComposes | Assets/Scripts/Utils/ProjectionCoordConversion.cs:32-38 | The clip point is the whole chain `ProjInt * FlipY * worldToLocal` applied to the homogeneous world point. |
| UtilsProjection.AffineClipW | Assets/Scripts/Utils/ProjectionCoordConversion.cs:34-50 | With an affine `ProjInt` the clip w is the local point's w. When world-to-local is affine too, w is 1, the focal-point guard never fires, and the canvas point is the remap of the clip x and y. |
| UtilsProjection.FocalPointToOrigin | Assets/Scripts/Utils/ProjectionCoordConversion.cs:40-44 | A point whose clip w is 0 lands on the canvas origin (0, 0). |
| UtilsProjection.CanvasEdges | Assets/Scripts/Utils/ProjectionCoordConversion.cs:48-49 | x is centred with the integer half width: clip -1 goes to -(W div 2), clip +1 to W - W div 2, and for an even W clip 0 goes to 0. y is flipped: clip +1 goes to 0, -1 to H and 0 to H/2. |
| UtilsProjection.CanvasRemapInverse | Assets/Scripts/Utils/ProjectionCoordConversion.cs:48-49 | For a non-zero size, the x and y remaps are bijections, inverted on both sides by `ClipFromCanvasX/Y`. |
| UtilsProjection.CanvasMonotone | Assets/Scripts/Utils/ProjectionCoordConversion.cs:48-49 | On a canvas of positive size, the canvas x grows strictly with clip x, and the canvas y falls strictly as clip y grows. |
| UtilsProjection.DistortionFixes | Assets/Scripts/Utils/ProjectionCoordConversion.cs:57-69 | The optical centre (0, 0) is fixed for any coefficients, and all-zero coefficients leave every point unchanged. |
| UtilsProjection.RadialOnly | Assets/Scripts/Utils/ProjectionCoordConversion.cs:57-67 | Without tangential terms, a point moves along its ray from the centre by the radial factor, and the correction is odd. |
| UtilsProjection.DistortionMirror | Assets/Scripts/Utils/ProjectionCoordConversion.cs:57-69 | Mirroring the point in the diagonal and exchanging p1 with p2 mirrors the corrected point. |
| KinectConversion.SetProjectorTransform | Assets/Scripts/ARClasses/KinectCoordConversion.cs:8-25 | The projector goes to P applied to the origin, with P = cameraToWorld · Rotation · Translate(Translation): the inverse computed first is overwritten by P. Its rotation is the look rotation of the negated third column with the second column as up, and nothing else changes. |
| KinectConversion.ProjectorPosition | Assets/Scripts/ARClasses/KinectCoordConversion.cs:15-23 | For an affine camera pose and rotation, the projector sits at the finite point cameraToWorld · (Rotation · Translation). |
| KinectConversion.OriginThroughProjector | Assets/Scripts/ARClasses/KinectCoordConversion.cs:15-23 | The origin goes through P as the translation goes through cameraToWorld · Rotation. |
| KinectConversion.ProjectorAtTranslation | Assets/Scripts/ARClasses/KinectCoordConversion.cs:15-23 | With identity camera pose and rotation, the projector sits at the calibration's translation. |
| KinectConversion.CalibratedProjectorFinite | Assets/Scripts/ARClasses/KinectCoordConversion.cs:15-23 | The rotation a calibration builds is affine, so a loaded calibration under an affine camera pose always places the projector at a finite point. |
| KinectConversion.ManualWorldToScreenPoint | Assets/Scripts/ARClasses/KinectCoordConversion.cs:27-49 | The kinect's projection is the ARClasses projection with the camera's `projectionMatrix` in place of `ProjInt`. |
| KinectConversion.ScreenPointShape | Assets/Scripts/ARClasses/KinectCoordConversion.cs:27-48 | The projection factors through camera space. The focal point gives (0, 0, 0), any other point keeps its z, and clip -1 and +1 are the pixel edges 0 and size. |
| CalibrationData.SkipSeparators | Assets/Scripts/ARClasses/CalibrationData.cs:158 | The result is a suffix of the text that does not start with the separator, and everything dropped is separators. |
| CalibrationData.IndexOf | Assets/Scripts/ARClasses/CalibrationData.cs:158 | The position of the first separator, or the length when there is none. No separator comes earlier. |
| CalibrationData.SplitLimited | Assets/Scripts/ARClasses/CalibrationData.cs:158 | `Split(sep, count, RemoveEmptyEntries)` yields at most `count` pieces. A count of 1 gives the text whole, or nothing for empty text. |
| CalibrationData.SplitPieces | Assets/Scripts/ARClasses/CalibrationData.cs:158 | The pieces between separators number at most the count. |
| CalibrationData.SplitLimitedPieces | Assets/Scripts/ARClasses/CalibrationData.cs:158 | Every piece is non-empty, and only the last piece can contain the separator. |
| CalibrationData.SplitPiecesShape | Assets/Scripts/ARClasses/CalibrationData.cs:158 | The pieces are non-empty, and only the last one can contain the separator. |
| CalibrationData.SplitLimitedIsWords | Assets/Scripts/ARClasses/CalibrationData.cs:158 | With fewer words than the count, the split yields exactly the separator-free words, except that a count of 1 keeps non-empty text whole. |
| CalibrationData.SplitPiecesIsWords | Assets/Scripts/ARClasses/CalibrationData.cs:158 | With fewer words than the count, the pieces are exactly the words. |
| CalibrationData.Tokens | Assets/Scripts/ARClasses/CalibrationData.cs:158 | `ReadMatrixData` gets at most ten tokens. Each is non-empty, and only the last can contain a space. |
| CalibrationData.TokensAreWords | Assets/Scripts/ARClasses/CalibrationData.cs:158 | A block of fewer than ten space-separated numbers is split into exactly its words, because the newline argument is the count 10. |
| CalibrationData.NewlineDoesNotSeparate | Assets/Scripts/ARClasses/CalibrationData.cs:158 | Non-empty text without spaces is a single token, whatever newlines it holds. |
| CalibrationData.LineSeparatedRotationFails | Assets/Scripts/ARClasses/CalibrationData.cs:99-104 | A rotation block whose numbers are separated by line breaks alone is one token, so loading fails with `IndexOutOfRangeException`. |
| CalibrationData.TrimEndDotsSpec | Assets/Scripts/ARClasses/CalibrationData.cs:163 | `TrimEnd('.')` keeps the longest prefix that does not end in '.', and everything it drops is a dot. |
| CalibrationData.TrimEndDotsIdempotent | Assets/Scripts/ARClasses/CalibrationData.cs:163 | Trimming twice is trimming once. |
| CalibrationData.Parsed | Assets/Scripts/ARClasses/CalibrationData.cs:160-168 | There are never more parsed values than tokens. |
| CalibrationData.Zeros | Assets/Scripts/ARClasses/CalibrationData.cs:159 | The tail of the fresh array: n slots, every one 0. |
| CalibrationData.ReadMatrixData | Assets/Scripts/ARClasses/CalibrationData.cs:155-172 | The array has one slot per token. The parsed values come first, in token order, and zeros fill the rest. |
| CalibrationData.PackValues | Assets/Scripts/ARClasses/CalibrationData.cs:159-171 | The loop writes the k-th successful parse into slot k and leaves the rest of the fresh array at 0. |
| CalibrationData.ParsedSnoc | Assets/Scripts/ARClasses/CalibrationData.cs:160-168 | A token appended at the end adds its own contribution at the end. |
| CalibrationData.ParsedStep | Assets/Scripts/ARClasses/CalibrationData.cs:160-168 | One more token of the list adds its contribution behind the values so far: the loop invariant's step. |
| CalibrationData.ParsedAppend | Assets/Scripts/ARClasses/CalibrationData.cs:160-168 | Parsing two lists of tokens in a row is parsing their concatenation. |
| CalibrationData.FailedTokenSkipped | Assets/Scripts/ARClasses/CalibrationData.cs:164-168 | A token that still fails after trimming leaves no slot, so the later values move up. |
| CalibrationData.ParsedSlot | Assets/Scripts/ARClasses/CalibrationData.cs:160-171 | The value of a token that parses lands in the slot numbered by the successful parses before it. Slot k holds the k-th successful value, and the slots from the success count on are 0. |
| CalibrationData.AllParsed | Assets/Scripts/ARClasses/CalibrationData.cs:160-171 | When every token parses, the array is exactly the parsed values, with no zeros. |
| CalibrationData.ProjIntLayout | Assets/Scripts/ARClasses/CalibrationData.cs:91-96 | Entry (i, j) of the intrinsic 3×3 block is value 3j + i times 0.001. The fourth row and column are (0, 0, 0, 1), so the matrix is affine. |
| CalibrationData.RotationLayout | Assets/Scripts/ARClasses/CalibrationData.cs:99-104 | Entry (i, j) of the rotation is value 3j + i, unscaled, with the same (0, 0, 0, 1) border. |
| CalibrationData.ExtrinsicLayout | Assets/Scripts/ARClasses/CalibrationData.cs:114-117 | Row i < 3 of the extrinsic is the rotation's row i followed by translation component i, and row 3 stays (0, 0, 0, 1). |
| CalibrationData.CamMatrixEntries | Assets/Scripts/ARClasses/CalibrationData.cs:120-129 | After the four writes, entries (0,0), (1,1), (0,2) and (1,2) read back as Fx, Fy, Cx and Cy, and every other entry is the identity's. |
| CalibrationData.AtMostTwoLocks | Assets/Scripts/ARClasses/CalibrationData.cs:131-153 | At most two `WriteLock` calls are issued. The second comes only after a failed first and a completed `WriteUnlock`. |
| CalibrationData.FailedRetryEscapes | Assets/Scripts/ARClasses/CalibrationData.cs:133-143 | When the lock is never acquired, the exception escapes before any fetch and nothing is applied. |
| CalibrationData.UnlockAfterLock | Assets/Scripts/ARClasses/CalibrationData.cs:143-152 | Once the lock is held, the fetch is issued and directly followed by a `WriteUnlock`, whether it returns or throws. The last call is a `WriteUnlock`, and the lock stays held only when every unlock failed. |
| CalibrationData.CalibrationData.constructor | Assets/Scripts/ARClasses/CalibrationData.cs:89-117 | The fields are laid out from the four packed blocks: `imgShape` swapped to width first, `ProjInt` and `Rotation` by columns, the translation with y and z exchanged and scaled by 0.001, and the extrinsic from both. |
| CalibrationData.CalibrationData.SetCamCalibFromParams | Assets/Scripts/ARClasses/CalibrationData.cs:120-129 | `CamMatrix` becomes the identity with Fx, Fy, Cx and Cy written, and the getters return the reply's values. The distortion coefficients are taken over, and the other fields stay. |
| CalibrationData.CalibrationData.GetCameraParameters | Assets/Scripts/ARClasses/CalibrationData.cs:131-153 | The remote calls issued, and whether an exception escapes, follow the lock protocol. The parameters are applied exactly when the fetch returned. |
| CalibrationData.Load | Assets/Scripts/ARClasses/CalibrationData.cs:73-118 | Loading throws exactly as `LoadFailure` says: `NullReferenceException` for a missing block, `IndexOutOfRangeException` for a block with too few tokens. A present block of malformed numbers yields zeros, not an error, and otherwise every field is laid out from the packed blocks. |
| RigidPoint.ActionPoint.constructor | Assets/Scripts/Classes/ActionPoint.cs:14-23 | The instance ends at rotation · location + translation, overwriting the raw location first written to it, and all fields hold their arguments. |
| RigidPoint.ActionPoint.Move | Assets/Scripts/Classes/ActionPoint.cs:25-31 | The location moves by the change componentwise, and the instance follows it. Rotation and translation never change. |
| RigidPoint.ActionPoint.CalcPosition | Assets/Scripts/Classes/ActionPoint.cs:33-38 | Only the instance's position is written: it is placed from the current location. |
| RigidPoint.MovesCompose | Assets/Scripts/Classes/ActionPoint.cs:25-31 | `Move(a)` then `Move(b)` leaves the location and the position where `Move(a + b)` does, and `Move((0, 0, 0))` changes neither. |
| RigidPoint.AffinePlaced | Assets/Scripts/Classes/ActionPoint.cs:33-38 | With an affine rotation matrix the placed position is finite and equals R · location + t. |
| RigidPoint.MoveShiftsPosition | Assets/Scripts/Classes/ActionPoint.cs:25-38 | With an affine rotation matrix, a move by c shifts the placed position by the linear part of the rotation applied to c. |
| DataManager.DataManager.constructor | Assets/Scripts/Classes/DataManager.cs:12-20 | An empty list of points. |
| DataManager.DataManager.Start | Assets/Scripts/Classes/DataManager.cs:22-27 | The list is empty and the extrinsic is the fixed one `FillMatrix` builds. |
| DataManager.DataManager.FillMatrix | Assets/Scripts/Classes/DataManager.cs:60-69 | The rotation is the three rows over a zero matrix with bottom row (0, 0, 0, 1), so it is affine, and the translation is set. |
| DataManager.DataManager.Update | Assets/Scripts/Classes/DataManager.cs:30-41 | A click adds exactly one point, at the clicked world position with z = 0. Without a click nothing changes. |
| DataManager.DataManager.AddActionPoint | Assets/Scripts/Classes/DataManager.cs:43-48 | Exactly one new point is appended, placed with the current rotation and translation, and the earlier points are untouched. |
| DataManager.DataManager.MovePoint | Assets/Scripts/Classes/DataManager.cs:50-53 | Only point id moves, by the change. An index outside the list throws `ArgumentOutOfRangeException` and changes nothing. |
| DataManager.DataManager.RemoveActionPoint | Assets/Scripts/Classes/DataManager.cs:55-58 | The point at id is dropped and the later ones shift down. An index outside the list throws and changes nothing. |
| DataManager.FilledPlacementFinite | Assets/Scripts/Classes/DataManager.cs:60-69 | Every point placed with the filled matrix lands on a finite position. |
| DataManager.RemoveShifts | Assets/Scripts/Classes/DataManager.cs:55-58 | Removing index id keeps the points before it, and the points after it shift down by one. |
| BaseActionPoint.FirstIndex | Assets/Scripts/ActionPoint.cs:300-346 | The index of the first element with the key, or the length when none has it. No earlier element has the key. |
| BaseActionPoint.Find | Assets/Scripts/ActionPoint.cs:300-346 | A null list gives `NullReferenceException`. Otherwise the result is the first element with the key, or `KeyNotFoundException` exactly when none has it. |
| BaseActionPoint.RemoveFirstShape | Assets/Scripts/ActionPoint.cs:384-395 | Only the first entry with the key is removed: the entries before it stay, the later ones shift down, and an absent key leaves the list as it is. |
| BaseActionPoint.OrientationUpdateShape | Assets/Scripts/ActionPoint.cs:349-375 | The orientation update leaves exactly the new entry at the first entry with its id. The name update keeps that entry's orientation, and every other entry is untouched. |
| BaseActionPoint.JointsUpdateShape | Assets/Scripts/ActionPoint.cs:407-422 | The joints update leaves exactly the new entry at the first entry with its id. The header update copies name, validity and robot but keeps the joint values, and nothing else changes. |
| BaseActionPoint.Sweep | Assets/Scripts/ActionPoint.cs:221-223 | Each step of the orientation sweep keeps the list's length and ids. |
| BaseActionPoint.SweepStep | Assets/Scripts/ActionPoint.cs:221-223 | One step of the sweep keeps the length and every id. |
| BaseActionPoint.SweepDistinct | Assets/Scripts/ActionPoint.cs:221-223 | With distinct ids every step finds its own entry, so the sweep changes nothing. |
| BaseActionPoint.SelfUpdate | Assets/Scripts/ActionPoint.cs:349-359 | With distinct ids, re-applying entry i finds entry i itself and changes nothing. |
| BaseActionPoint.NatToString | Assets/Scripts/ActionPoint.cs:55 | `int.ToString()` of a non-negative number is a non-empty string of digits. |
| BaseActionPoint.NatToStringInjective | Assets/Scripts/ActionPoint.cs:55 | Distinct numbers print differently. |
| BaseActionPoint.Candidate | Assets/Scripts/ActionPoint.cs:50-58 | Candidate 0 is "default" and candidate k ≥ 1 is "default_" followed by k. |
| BaseActionPoint.CandidateInjective | Assets/Scripts/ActionPoint.cs:50-58 | Distinct candidate numbers give distinct names, so the search never repeats a name. |
| BaseActionPoint.FirstFreeUnique | Assets/Scripts/ActionPoint.cs:50-58 | The first free candidate is unique and not taken, and it is "default" exactly when "default" is free. |
| BaseActionPoint.CandidatesBound | Assets/Scripts/ActionPoint.cs:50-58 | No more than \|taken\| candidates can all be taken, so the do-while loop stops. |
| BaseActionPoint.TakenExtend | Assets/Scripts/ActionPoint.cs:50-58 | One more taken candidate extends the prefix of taken candidates: the loop invariant's step. |
| BaseActionPoint.ActionPoint.constructor | Assets/Scripts/ActionPoint.cs:20 | The field initializer: empty id and name, empty lists and the origin. |
| BaseActionPoint.ActionPoint.GetOrientation | Assets/Scripts/ActionPoint.cs:300-306 | The first orientation with the id, `KeyNotFoundException` when there is none, or `NullReferenceException` for a null list. |
| BaseActionPoint.ActionPoint.GetJoints | Assets/Scripts/ActionPoint.cs:313-319 | The first joints entry with the id, `KeyNotFoundException` when there is none, or `NullReferenceException` for a null list. |
| BaseActionPoint.ActionPoint.GetJointsByName | Assets/Scripts/ActionPoint.cs:326-332 | The first joints entry with the name, `KeyNotFoundException` when there is none, or `NullReferenceException` for a null list. |
| BaseActionPoint.ActionPoint.GetOrientationByName | Assets/Scripts/ActionPoint.cs:340-346 | The first orientation with the name, `KeyNotFoundException` when there is none, or `NullReferenceException` for a null list. |
| BaseActionPoint.ActionPoint.GetDefaultPose | Assets/Scripts/ActionPoint.cs:141-147 | The position together with the first orientation whose id is "default". When no orientation has that id, `ItemNotFoundException`; a null list throws `NullReferenceException`. |
| BaseActionPoint.ActionPoint.OrientationNameExist | Assets/Scripts/ActionPoint.cs:277-284 | True exactly when some orientation has the name. `KeyNotFoundException` is caught and a null list is not. |
| BaseActionPoint.ActionPoint.JointsNameExist | Assets/Scripts/ActionPoint.cs:286-293 | True exactly when some joints entry has the name. A null list throws. |
| BaseActionPoint.ActionPoint.GetFreeOrientationName | Assets/Scripts/ActionPoint.cs:47-61 | The first candidate that is neither an orientation name nor a joints name: "default" when free, otherwise "default_k" for the least free k. A null list throws `NullReferenceException`. |
| BaseActionPoint.ActionPoint.GetFreeJointsName | Assets/Scripts/ActionPoint.cs:63-77 | The same name `GetFreeOrientationName` finds, asking the joints first. |
| BaseActionPoint.ActionPoint.ActionPointBaseUpdate | Assets/Scripts/ActionPoint.cs:25-30 | Name and position are copied onto the record, and the transform goes to the ground-plane position. |
| BaseActionPoint.ActionPoint.SetSize | Assets/Scripts/ARClasses/ActionPoint2D.cs:41-44 | `SetSize` changes nothing. |
| BaseActionPoint.ActionPoint.InitAP | Assets/Scripts/ActionPoint.cs:32-45 | The record is taken over. Its null action, orientation and joints lists become empty ones and the others are kept. |
| BaseActionPoint.ActionPoint.UpdateOrientation | Assets/Scripts/ActionPoint.cs:349-359 | The first entry with that id takes the new orientation and name, and only that entry changes. An unknown id throws and changes nothing. |
| BaseActionPoint.ActionPoint.BaseUpdateOrientation | Assets/Scripts/ActionPoint.cs:367-375 | Only the name of the first entry with that id changes. An unknown id throws. |
| BaseActionPoint.ActionPoint.AddOrientation | Assets/Scripts/ActionPoint.cs:361-364 | Exactly one orientation is appended at the end. |
| BaseActionPoint.ActionPoint.RemoveOrientations | Assets/Scripts/ActionPoint.cs:377-382 | The orientation list ends empty. |
| BaseActionPoint.ActionPoint.RemoveOrientation | Assets/Scripts/ActionPoint.cs:384-395 | Only the first entry with that id is removed, and an absent id leaves the list unchanged. |
| BaseActionPoint.ActionPoint.UpdateJoints | Assets/Scripts/ActionPoint.cs:407-411 | The joint values, name, validity and robot of the first entry with that id are copied. An unknown id throws. |
| BaseActionPoint.ActionPoint.BaseUpdateJoints | Assets/Scripts/ActionPoint.cs:413-422 | Name, validity and robot are copied, but not the joint values. An unknown id throws. |
| BaseActionPoint.ActionPoint.AddJoints | Assets/Scripts/ActionPoint.cs:424-426 | Exactly one joints entry is appended at the end. |
| BaseActionPoint.ActionPoint.RemoveJoints | Assets/Scripts/ActionPoint.cs:428-437 | Only the first joints entry with that id is removed, and an absent id leaves the list unchanged. |
| BaseActionPoint.ActionPoint.UpdateActionPoint | Assets/Scripts/ActionPoint.cs:212-253 | The record is replaced and the transform reset, then every orientation is re-applied in list order. The returned action ids and connections are empty. |
| BaseActionPoint.ActionPoint.UpdateActionPoint2D | Assets/Scripts/ARClasses/ActionPoint2D.cs:46-51 | The override returns the base result unchanged. |
| BaseActionPoint.UpdateWithDistinctIds | Assets/Scripts/ActionPoint.cs:212-253 | With distinct orientation ids, `UpdateActionPoint` leaves the received record as it came. |
| ActionPoint2D.GetScenePosition | Assets/Scripts/ARClasses/ActionPoint2D.cs:13-30 | The ground-plane position of the ROS position, whether or not a kinect exists. |
| ActionPoint2D.GetSceneOrientation | Assets/Scripts/ARClasses/ActionPoint2D.cs:32-35 | Always the identity rotation. |
| ActionPoint2D.ScenePositionOnGround | Assets/Scripts/ARClasses/ActionPoint2D.cs:13-30 | The scene position lies on y = 0 and depends neither on the kinect nor on the ROS height. |
| ArActionPoint.ScenePosition | Assets/Scripts/Objects/ActionPoint.cs:35-51 | Without a kinect the scene position lies on the ground plane y = 0, and with one in the canvas plane z = 0. |
| ArActionPoint.ScenePositionPlane | Assets/Scripts/Objects/ActionPoint.cs:35-51 | Without a kinect the scene position is (-y, 0, x), on the ground plane. With one it lies in the canvas plane z = 0. The ROS z never matters. |
| ArActionPoint.ActionPoint.constructor | Assets/Scripts/Objects/ActionPoint.cs:9 | The field initializer, with the transform at the origin. |
| ArActionPoint.ActionPoint.ActionPointBaseUpdate | Assets/Scripts/Objects/ActionPoint.cs:11-14 | Only the position is copied onto the record (not the name), and the record is otherwise unchanged. |
| ArActionPoint.ActionPoint.InitAP | Assets/Scripts/Objects/ActionPoint.cs:16-20 | The record is replaced, and the transform goes to the scene position of its position. |
| ArActionPoint.ActionPoint.ResetPosition | Assets/Scripts/Objects/ActionPoint.cs:30-33 | The transform goes to the scene position of the record, and the record is kept. |
| ArActionPoint.ActionPoint.DeleteAP | Assets/Scripts/Objects/ActionPoint.cs:22-28 | With the flag, the entry keyed by this point's id leaves the table. Without it the table is unchanged. |
| ArActionPoint.ActionPointTable.constructor | Assets/Scripts/ProjectManager.cs:20 | An empty table. |
| ArActionPoint.ValidEntriesDistinct | Assets/Scripts/ProjectManager.cs:20 | In a table keyed by its points' own ids, no two keys share a point. |
| ArActionPoint.ChildIdsAreKeys | Assets/Scripts/ActionObject.cs:130-138 | In such a table, the ids of the children of an object are the keys of the entries whose parent it is. |
| ArActionPoint.ChildrenOf | Assets/Scripts/ActionObject.cs:130-138 | The scan returns exactly the points of the table whose parent is the id, each once. |
| ProjectManager.GroupsStep | Assets/Scripts/ProjectManager.cs:117-134 | Adding a point to its group keeps every group equal to the members of the longer list. |
| ProjectManager.MembersAppend | Assets/Scripts/ProjectManager.cs:117-134 | Appending a point extends the group of its key and no other. |
| ProjectManager.AoParentsExtend | Assets/Scripts/ProjectManager.cs:131-133 | Appending a point adds one worklist entry exactly when its parent is an action object. |
| ProjectManager.GroupedStep | Assets/Scripts/ProjectManager.cs:117-134 | One turn of the grouping loop keeps the groups and the worklist as stated after one more point. |
| ProjectManager.MembersShape | Assets/Scripts/ProjectManager.cs:118-130 | A group holds exactly the points with that key: a null or empty parent groups under "global". With unique ids, the group's ids are unique too. |
| ProjectManager.AoParentsShape | Assets/Scripts/ProjectManager.cs:131-133 | The worklist's action-object entries are action objects, at least one per such parent and one per child. |
| ProjectManager.IndexOfId | Assets/Scripts/ProjectManager.cs:114-116 | The position of the first point with the id, when one has it. |
| ProjectManager.IndexFrom | Assets/Scripts/ProjectManager.cs:114-116 | The position of the first point with the id at or after a start position. |
| ProjectManager.ByIdFinds | Assets/Scripts/ProjectManager.cs:114-116 | With unique ids, a point is the one its id finds. |
| ProjectManager.IdIndexFinds | Assets/Scripts/ProjectManager.cs:114-116 | With unique ids, the map by id sends each point's id to that point. |
| ProjectManager.Root | Assets/Scripts/ProjectManager.cs:136-155 | Every worklist entry descends from an initial entry. |
| ProjectManager.RootAppend | Assets/Scripts/ProjectManager.cs:152 | An appended entry has the root of the entry whose visit appended it. |
| ProjectManager.IdsOf | Assets/Scripts/ProjectManager.cs:150-152 | The ids of a group, in order and one per member. |
| ProjectManager.IdsOfIndex | Assets/Scripts/ProjectManager.cs:150-152 | The ids of a prefix of a group are the prefix of its ids. |
| ProjectManager.GroupSoFar | Assets/Scripts/ProjectManager.cs:138-153 | The ids appended for the first j members of a group are those members' ids, and not member j's. |
| ProjectManager.WorkStep | Assets/Scripts/ProjectManager.cs:138-153 | Appending member j of the group visited at position i keeps the worklist invariant, and the new entry is grounded. |
| ProjectManager.MemberGrounded | Assets/Scripts/ProjectManager.cs:138-146 | A member of the group visited at a grounded position is itself grounded, and looking up its id finds it. |
| ProjectManager.AppendKeeps | Assets/Scripts/ProjectManager.cs:152 | Appending a member of the visited group keeps the worklist invariant. |
| ProjectManager.AppendRoots | Assets/Scripts/ProjectManager.cs:152 | After the append, equal ids still sit under different initial entries. |
| ProjectManager.NewEntryDistinct | Assets/Scripts/ProjectManager.cs:152 | The appended entry does not repeat an earlier entry's id under the same root. |
| ProjectManager.AppendedNotRoot | Assets/Scripts/ProjectManager.cs:152 | No appended entry is "global" or an action object, since no point has such an id. |
| ProjectManager.TimesMono | Assets/Scripts/ProjectManager.cs:136-155 | Repeated addition is monotone in its count. |
| ProjectManager.WorkBound | Assets/Scripts/ProjectManager.cs:136-155 | The worklist never grows beyond its n0 initial entries plus n0 · \|points\|, so the loop over the growing list ends. |
| ProjectManager.CodesCard | Assets/Scripts/ProjectManager.cs:136-155 | The appended entries have as many distinct (root, point) codes as there are entries. |
| ProjectManager.CodeInjective | Assets/Scripts/ProjectManager.cs:136-155 | Distinct appended entries have distinct (root, point) codes. |
| ProjectManager.SubsetCard | Assets/Scripts/ProjectManager.cs:136-155 | A subset is no larger than its superset (the counting step of the bound). |
| ProjectManager.RangeCard | Assets/Scripts/ProjectManager.cs:136-155 | The range 0 .. M - 1 has M elements. |
| ProjectManager.GroundStep | Assets/Scripts/ProjectManager.cs:138-146 | A member of a group visited from a grounded key is grounded. |
| ProjectManager.Complete | Assets/Scripts/ProjectManager.cs:136-155 | When every listed group has been walked, the id of every point whose parent chain reaches "global" or an action object is on the worklist. |
| ProjectManager.InSuffix | Assets/Scripts/ProjectManager.cs:136-155 | An entry past the initial ones lies in the appended suffix. |
| ProjectManager.ListedProcessed | Assets/Scripts/ProjectManager.cs:136-155 | Every id appended to the worklist belongs to a grounded point. |
| ProjectManager.ClosedGrow | Assets/Scripts/ProjectManager.cs:136-155 | Lengthening the worklist keeps the visited groups closed. |
| ProjectManager.ClosedNext | Assets/Scripts/ProjectManager.cs:136-155 | Once the group at position i is all on the worklist, positions up to i are closed. |
| ProjectManager.ProcessedListed | Assets/Scripts/ProjectManager.cs:136-155 | Once the whole worklist is visited, every grounded point's id has been appended. |
| ProjectManager.WalkInit | Assets/Scripts/ProjectManager.cs:117-136 | The walk starts from the initial entries, with nothing appended. |
| ProjectManager.WalkSkip | Assets/Scripts/ProjectManager.cs:137-138 | A position whose key has no group is visited without appending. |
| ProjectManager.GroupWalkInit | Assets/Scripts/ProjectManager.cs:138-139 | The inner loop starts at the end of the worklist, with no member visited. |
| ProjectManager.GroupWalkStep | Assets/Scripts/ProjectManager.cs:139-153 | Visiting member j of the group appends its id to the worklist and to `currentAP`. |
| ProjectManager.GroupWalkDone | Assets/Scripts/ProjectManager.cs:136-155 | After the whole group, the walk moves on to position i + 1. |
| ProjectManager.WalkDone | Assets/Scripts/ProjectManager.cs:136-155 | When the whole worklist is visited, `currentAP` holds exactly the ids of the points whose parent chain reaches "global" or an action object. |
| ProjectManager.ProjectManager.constructor | Assets/Scripts/ProjectManager.cs:20 | An empty table of action points, and no projection call. |
| ProjectManager.ProjectManager.CreateProject | Assets/Scripts/ProjectManager.cs:70-73 | The result is always true. The table's keys are exactly the grounded ids, each listed point is refreshed from the project, and old points are kept. |
| ProjectManager.ProjectManager.DestroyProject | Assets/Scripts/ProjectManager.cs:79-86 | The result is true, the table ends empty, and `ProjectionManager.DestroyProjection` is called once. |
| ProjectManager.ProjectManager.SpawnActionPoint | Assets/Scripts/ProjectManager.cs:94-103 | A fresh point holding the record, placed at its scene position, is added under its id. A duplicate id throws `ArgumentException` and leaves the table as it was. |
| ProjectManager.ProjectManager.RemoveActionPoint | Assets/Scripts/ProjectManager.cs:169-173 | The entry under the id, if any, leaves the table, and nothing else changes. |
| ProjectManager.ProjectManager.GetActionPoint | Assets/Scripts/ProjectManager.cs:180-186 | The point under the id exactly when the key is present, and otherwise `KeyNotFoundException`. |
| ProjectManager.ProjectManager.OnActionPointBaseUpdated | Assets/Scripts/ProjectManager.cs:45-54 | The named point takes the new position. The "not found" notification is raised exactly when the id is absent, and the other points are unchanged. |
| ProjectManager.ProjectManager.Refresh | Assets/Scripts/ProjectManager.cs:140-146 | An existing point takes the project's position and keeps the rest of its record. A missing point is spawned from the project's record. |
| ProjectManager.ProjectManager.VisitPoint | Assets/Scripts/ProjectManager.cs:140-150 | After refreshing one point, the table invariant of the walk holds with its id in `currentAP`. |
| ProjectManager.ProjectManager.VisitGroup | Assets/Scripts/ProjectManager.cs:138-154 | Every member of the group at position i is refreshed, and its id is appended to `currentAP` and to the worklist. |
| ProjectManager.ProjectManager.VisitMember | Assets/Scripts/ProjectManager.cs:139-153 | One member of the group is refreshed and its id queued. |
| ProjectManager.ProjectManager.GroupByParent | Assets/Scripts/ProjectManager.cs:117-134 | Each group holds exactly the points with that parent key, in order. The worklist starts with "global" followed by one entry per point whose parent is an action object. |
| ProjectManager.ProjectManager.GroupAll | Assets/Scripts/ProjectManager.cs:117-134 | The grouping loop over the whole list ends with every group holding exactly its members and the worklist starting "global", then the action-object parents. |
| ProjectManager.ProjectManager.Group | Assets/Scripts/ProjectManager.cs:118-133 | One point joins the group of its parent key, and its parent joins the worklist when it is an action object, keeping the grouping invariant. |
| ProjectManager.ProjectManager.UpdateActionPoints | Assets/Scripts/ProjectManager.cs:109-163 | The table's keys are exactly the ids whose parent chain reaches "global" or an action object, so every other entry is removed. Each kept point is refreshed, old points stay the same objects, and new ones are fresh. |
| ProjectManager.ProjectManager.WalkWorklist | Assets/Scripts/ProjectManager.cs:136-155 | Every position of the growing worklist is visited in order, and `currentAP` ends listing exactly the grounded ids. |
| ProjectManager.ProjectManager.WalkStep | Assets/Scripts/ProjectManager.cs:137-155 | One turn of the worklist loop: the group of the position, if any, is visited. |
| ProjectManager.ProjectManager.RemoveNotIn | Assets/Scripts/ProjectManager.cs:157-162 | Exactly the points whose ids are not kept are removed. |
| ActionsManager.CycleDiverges | Assets/Scripts/ActionsManager.cs:202-216 | Once the walk continues from a passed entry back into the entries it passed, the recursion answers nothing after any number of nested calls. |
| ActionsManager.UnrolledWalk | Assets/Scripts/ActionsManager.cs:202-216 | When the source's recursion, cut off after some number of calls, has returned, the walk `IsDescendantOfType` returns the same answer. |
| ActionsManager.WalkReturns | Assets/Scripts/ActionsManager.cs:202-216 | A walk that answers does so within as many nested calls as there are entries it has not yet passed. |
| ActionsManager.DescendantIsRecursion | Assets/Scripts/ActionsManager.cs:202-216 | `IsDescendantOfType` is the source's recursion. An answer is returned within |types| nested calls, and `None` means the recursion is still going after any number of calls. |
| ActionsManager.WalkMetasOnly | Assets/Scripts/ActionsManager.cs:202-216 | The walk reads only the entries' announced types, so computing the kind flags in place never changes its answer. |
| ActionsManager.WalkRanked | Assets/Scripts/ActionsManager.cs:202-216 | On a registry ranked by a ghost rank that every `Base` link lowers, no walk re-enters an entry, and it answers as `RankedDescendant`. |
| ActionsManager.Ancestry | Assets/Scripts/ActionsManager.cs:202-216 | The walk up the `Base` chain starts at the type itself. |
| ActionsManager.DescendantIffAncestor | Assets/Scripts/ActionsManager.cs:202-216 | On a ranked registry, a type descends from `kind` exactly when kind is on its chain of bases, which ends at "Generic" or at a base that is not a key. |
| ActionsManager.DescendantRegistered | Assets/Scripts/ActionsManager.cs:202-216 | On a ranked registry a type descends from its own name, and otherwise only from a registered type of no higher rank. |
| ActionsManager.DescendantMetasOnly | Assets/Scripts/ActionsManager.cs:202-216 | The ranked answer depends only on the entries' type metadata, not on their flags. |
| ActionsManager.KindsRanked | Assets/Scripts/ActionsManager.cs:125-127 | On a ranked registry the three walks of an announcement all return, with the ranked answers. |
| ActionsManager.KindsMetasOnly | Assets/Scripts/ActionsManager.cs:125-127 | The three kind flags read only the announced types, so they are the same on registries that differ only in flags. |
| ActionsManager.TypeNames | Assets/Scripts/ActionsManager.cs:131 | The names reported are the announced types' names, in order. |
| ActionsManager.TypeSet | Assets/Scripts/ActionsManager.cs:128 | The set of the first n announced names. |
| ActionsManager.TypeSetIff | Assets/Scripts/ActionsManager.cs:128 | A name is in that set exactly when one of the first n announcements carries it. |
| ActionsManager.NewTypesIff | Assets/Scripts/ActionsManager.cs:128 | The first n announcements can all be added exactly when their names are distinct and none is already a key. |
| ActionsManager.NewTypesPrefix | Assets/Scripts/ActionsManager.cs:128 | A prefix of addable announcements is addable. |
| ActionsManager.FreshLength | Assets/Scripts/ActionsManager.cs:114-132 | The length of the longest addable prefix: the announcement after it repeats a name. |
| ActionsManager.FreshLengthIs | Assets/Scripts/ActionsManager.cs:114-132 | The addable prefix is determined by the first repeated name. |
| ActionsManager.AllAbstractIff | Assets/Scripts/ActionsManager.cs:117-118 | After n announcements the flag is still true exactly when all of them are abstract. |
| ActionsManager.AddLoopStops | Assets/Scripts/ActionsManager.cs:114-132 | Once an exception leaves the loop of `ObjectTypeAdded`, later announcements change nothing. |
| ActionsManager.AddLoopOk | Assets/Scripts/ActionsManager.cs:114-132 | The additions report every name in order only when all are fresh and distinct. The keys are then the old ones plus those names. |
| ActionsManager.AddLoopThrows | Assets/Scripts/ActionsManager.cs:125-128 | A repeated or present name makes the additions throw. `ArgumentException` comes only from such a name, and a walk that never returns is the only other way they end. |
| ActionsManager.AddLoopKeeps | Assets/Scripts/ActionsManager.cs:114-132 | Every old entry stays as it was, even when a name repeats, and the flag only falls. |
| ActionsManager.AddLoopEntry | Assets/Scripts/ActionsManager.cs:116-128 | After additions that all succeeded, the i-th announcement is registered under its name, with its kinds computed on the registry it arrived at. |
| ActionsManager.AddLoopLast | Assets/Scripts/ActionsManager.cs:116-131 | A turn that succeeds adds its announcement with the kinds its walks returned, and keeps the other entries. |
| ActionsManager.AddLoopRanked | Assets/Scripts/ActionsManager.cs:114-132 | On a ranked registry with ranked announcements no walk repeats, and the registry stays ranked. |
| ActionsManager.AddLoopFresh | Assets/Scripts/ActionsManager.cs:114-132 | When no walk fails to return, the keys are the old ones plus the longest fresh prefix of the names, and a name that threw is already a key. |
| ActionsManager.AddFreshTurn | Assets/Scripts/ActionsManager.cs:116-128 | One turn of `AddLoopFresh` after additions that all succeeded. |
| ActionsManager.CycleClosingAdded | Assets/Scripts/ActionsManager.cs:108-135 | With "A" (base "B") registered, announcing "B" with base "A" succeeds and registers both. Afterwards the walk from "A" never returns. |
| ActionsManager.Collect | Assets/Scripts/ActionsManager.cs:178-190 | The first loop of `UpdateObjects` collects exactly the announced names as keys. |
| ActionsManager.CollectEntry | Assets/Scripts/ActionsManager.cs:180-189 | Each collected type is stored as announced, with `ActionsLoaded` for the abstract and built-in ones. |
| ActionsManager.CollectRanked | Assets/Scripts/ActionsManager.cs:178-190 | A collection of ranked announcements is a ranked registry. |
| ActionsManager.CollectionRanked | Assets/Scripts/ActionsManager.cs:178-190 | The collected registry is ranked. |
| ActionsManager.DerivedConsistent | Assets/Scripts/ActionsManager.cs:191-196 | On a ranked registry, after the second loop every entry's kinds are those computed on the final registry. |
| ActionsManager.ReplacementSpec | Assets/Scripts/ActionsManager.cs:174-200 | With ranked announcements, the replacement succeeds exactly when the names are distinct. Its keys are exactly those names (up to a repeat), it is ranked, and the flag never rises. |
| ActionsManager.ReplacementEntry | Assets/Scripts/ActionsManager.cs:178-196 | After a ranked replacement succeeds, each type is registered under its own name, with its kinds computed on the final registry. |
| ActionsManager.ReplaceSpec | Assets/Scripts/ActionsManager.cs:174-200 | On any announcements, the replacement throws `ArgumentException` exactly when a name repeats. Otherwise its keys are exactly the names, and when it completes each entry's kinds are the walks' answers on the final registry. It may also stop on a walk that never returns. The flag never rises. |
| ActionsManager.ReplaceRanked | Assets/Scripts/ActionsManager.cs:174-200 | With ranked announcements no walk repeats, and `Replace` is the ranked `Replacement`. |
| ActionsManager.FirstHitsSpec | Assets/Scripts/ActionsManager.cs:86-94 | The reported names are exactly the requested names that were keys, each once. |
| ActionsManager.ActionsManager.constructor | Assets/Scripts/ActionsManager.cs:30-43 | An empty registry with every flag false and the component enabled. |
| ActionsManager.ActionsManager.Init | Assets/Scripts/ActionsManager.cs:76-82 | The registry is cleared and `AbstractOnlyObjects` set. `ActionsReady` and `ActionObjectsLoaded` are cleared. |
| ActionsManager.ActionsManager.Update | Assets/Scripts/ActionsManager.cs:59-74 | `ActionsReady` becomes true exactly when the types are loaded and every type that is not disabled has its actions loaded, and the component then disables itself. Otherwise nothing changes. |
| ActionsManager.ActionsManager.EveryActionLoaded | Assets/Scripts/ActionsManager.cs:63-69 | The scan answers whether every type that is not disabled has its actions loaded. |
| ActionsManager.ActionsManager.ObjectTypeRemoved | Assets/Scripts/ActionsManager.cs:84-106 | Only the present keys among the request are removed. A non-empty request reports exactly those and recomputes `AbstractOnlyObjects` as "every remaining type is abstract". |
| ActionsManager.ActionsManager.RemoveKeys | Assets/Scripts/ActionsManager.cs:87-94 | The loop leaves the registry without the requested keys and lists the present ones once each. |
| ActionsManager.ActionsManager.OnlyAbstract | Assets/Scripts/ActionsManager.cs:97-102 | The scan answers whether every remaining type is abstract. |
| ActionsManager.ActionsManager.ObjectTypeAdded | Assets/Scripts/ActionsManager.cs:108-135 | The registry, the flag and the result are the outcome of `AddLoop` over all announcements: the names added, `ArgumentException` at a repeated name, or `StackOverflow` at a walk that never returns. `ActionsReady` is cleared and the component enabled. |
| ActionsManager.ActionsManager.AddTypes | Assets/Scripts/ActionsManager.cs:114-132 | The loop of `ObjectTypeAdded` ends in `AddLoop`'s outcome, at the end or at the first announcement that throws. |
| ActionsManager.ActionsManager.UpdateObjects | Assets/Scripts/ActionsManager.cs:174-200 | The result and the registry are what `Replace` states. On a walk that never returns, the registry holds the same announced types. `ActionsReady` is cleared, and `ActionObjectsLoaded` is set only on success. |
| ActionsManager.ActionsManager.CollectTypes | Assets/Scripts/ActionsManager.cs:177-190 | The first loop of `UpdateObjects` ends in `Collection`'s outcome. |
| ActionsManager.ActionsManager.DeriveKinds | Assets/Scripts/ActionsManager.cs:191-196 | The second loop keeps the announced types. It completes exactly when every entry's walks return, and then each entry's kinds are computed on the first registry, which has the same answers. |
| BaseActionObject.ActionObject.constructor | Assets/Scripts/ActionObject.cs:19-30 | Id and type are copied into a default record, and the name is not. A type with a pose stores the converted transform, which `GetPose` then reports. |
| BaseActionObject.ActionObject.UpdateObjectName | Assets/Scripts/ActionObject.cs:32-35 | Only the record's name changes. |
| BaseActionObject.ActionObject.ActionObjectUpdate | Assets/Scripts/ActionObject.cs:43-62 | The record is replaced, and the rename runs exactly when the names differ. A null `Parameters` list in the new record then throws `NullReferenceException`. |
| BaseActionObject.ActionObject.GetActionMetadata | Assets/Scripts/ActionObject.cs:81-90 | With the actions loaded, the present entry or `ItemNotFoundException`. Before they are loaded, null. |
| BaseActionObject.ActionObject.GetPose | Assets/Scripts/ActionObject.cs:172-178 | With a pose, the transform converted to ROS. Without one, the pose built from the default position and orientation. |
| BaseActionObject.ActionObject.GetActionPoints | Assets/Scripts/ActionObject.cs:130-138 | Exactly the project's points whose parent is this object's id. |
| BaseActionObject.ActionObject.RemoveActionPoints | Assets/Scripts/ActionObject.cs:116-122 | Exactly the object's child points leave the project's table. |
| BaseActionObject.ActionObject.DeleteActionObject | Assets/Scripts/ActionObject.cs:101-110 | The child points leave the project's table, and then this object's id leaves the scene's table. |
| BaseActionObject.ActionObjectTable.constructor | Assets/Scripts/SceneManager.cs:18 | An empty table. |
| BaseActionObject.KindsFollowAncestry | Assets/Scripts/ActionObject.cs:93-99 | For ranked announcements with distinct names, `UpdateObjects` completes, and a registered object's `IsRobot` (`IsCamera`) holds exactly when "Robot" ("Camera") is on its type's chain of bases. |
| BaseActionObject.AnnouncedActionsAnswer | Assets/Scripts/ActionObject.cs:81-90 | An object of an abstract or built-in type never gets null from `GetActionMetadata`. Any other type gets null until its actions are loaded. |
| SceneManager.SpawnPoint | Assets/Scripts/SceneManager.cs:78-86 | Only type "KinectAzure" is placed under `World`, and every other type goes under `CanvasScene`. |
| SceneManager.SpawnCalls | Assets/Scripts/SceneManager.cs:78-86 | The projection is set up exactly for the kinect, and then once, for the new object. |
| SceneManager.SceneManager.constructor | Assets/Scripts/SceneManager.cs:18 | An empty table, with nothing instantiated and no projection call. |
| SceneManager.SceneManager.SpawnActionObject | Assets/Scripts/SceneManager.cs:69-96 | An unknown type or a type without a pose returns null and changes nothing. Otherwise one prefab is instantiated under its spawn point, and the record is added under its id; a duplicate id throws and leaves the table. A record with a null parameter list is added and then throws. |
| SceneManager.SceneManager.GetActionObject | Assets/Scripts/SceneManager.cs:175-179 | The object under the id exactly when the key is present, and otherwise `KeyNotFoundException`. |
| SceneManager.SceneManager.SceneObjectUpdated | Assets/Scripts/SceneManager.cs:102-109 | The object under the id takes the record, and the other objects keep theirs. A record with a null parameter list throws after it is taken. An unknown id throws, so the "not found" branch is unreachable. |
| SceneManager.SceneManager.RemoveActionObject | Assets/Scripts/SceneManager.cs:162-168 | The object and its child points leave both tables. An unknown id throws `KeyNotFoundException`, which the handler does not catch. |
| SceneManager.SceneManager.SceneObjectRemoved | Assets/Scripts/SceneManager.cs:124-132 | The object and its child points leave both tables. An unknown id throws, so the "not found" branch is unreachable. |
| SceneManager.SceneManager.RemoveActionObjects | Assets/Scripts/SceneManager.cs:150-156 | The scene's table ends empty, and exactly the children of the removed objects leave the project's table. |
| SceneManager.SceneManager.RemoveStep | Assets/Scripts/SceneManager.cs:151-153 | One turn of the loop keeps the removal invariant. |
| SceneManager.SceneManager.DestroyScene | Assets/Scripts/SceneManager.cs:53-59 | The result is true. The objects are removed with their action points, and then the projection is destroyed. |
| SceneManager.SceneManager.GetAllObjectsOfType | Assets/Scripts/SceneManager.cs:181-183 | The result is drawn from the scene's objects. |
| SceneManager.SceneManager.ObjectsOfTypePartition | Assets/Scripts/SceneManager.cs:181-183 | An object is returned for its own type and for no other, so the answers partition the table. |
| SceneManager.RemoveOneStep | Assets/Scripts/SceneManager.cs:150-156 | Removing one more object's children from the table already cleared of the earlier ones clears the children of both. |
| ObjectsActionObject.CanvasModel | Assets/Scripts/Objects/ActionObject.cs:58-89 | A circle exactly for a cylinder or a sphere, scaled (r, h/2, r) or (r, r, r). A box gives a square of scale (SizeY, SizeX, SizeZ), and a null model, a mesh or no type gives the 0.05 square. |
| ObjectsActionObject.CanvasDimensions | Assets/Scripts/Objects/ActionObject.cs:36-56 | Dimensions exist exactly for a box, a cylinder or a sphere, and a cylinder's are (r, r, h). |
| ObjectsActionObject.TintOf | Assets/Scripts/Objects/ActionObject.cs:91-109 | The collision colour exactly for a collision object, the robot colour for a robot that is not one, and the action-object colour otherwise. |
| ObjectsActionObject.CanvasPosition | Assets/Scripts/Objects/ActionObject.cs:131-137 | Without a kinect, (-y, 0, x). With one, a point in the plane z = 0. |
| ObjectsActionObject.UpdateAfterCreate | Assets/Scripts/Objects/ActionObject.cs:36-89 | Right after `CreateModel`, `UpdateModel` keeps a box's and a sphere's scale. It changes a cylinder's unless radius and height are both 0, because the two methods disagree on the cylinder's height axis. |
| ObjectsActionObject.ActionObject.constructor | Assets/Scripts/Objects/ActionObject.cs:23-34 | Id and type are copied into a default record, a type with a pose stores the converted transform, and the model is drawn and tinted. |
| ObjectsActionObject.ActionObject.CreateModel | Assets/Scripts/Objects/ActionObject.cs:58-89 | The model is the shape and scale `CanvasModel` chooses, with `TintOf`'s colour, and nothing else changes. |
| ObjectsActionObject.ActionObject.UpdateColor | Assets/Scripts/Objects/ActionObject.cs:91-109 | The model takes `TintOf`'s colour. Without a model it throws `NullReferenceException`. |
| ObjectsActionObject.ActionObject.UpdateModel | Assets/Scripts/Objects/ActionObject.cs:36-56 | A type without dimensions leaves the model alone. Otherwise the model is rescaled to them, or a missing model throws. |
| ObjectsActionObject.ActionObject.GetScenePosition | Assets/Scripts/Objects/ActionObject.cs:124-138 | Zero without a pose, and otherwise the canvas position of the record's position. A null pose throws. |
| ObjectsActionObject.ActionObject.GetSceneOrientation | Assets/Scripts/Objects/ActionObject.cs:145-148 | The canvas orientation, from which `CanvasToROS` recovers the record's orientation. A null pose throws. |
| ObjectsActionObject.ActionObject.ResetPosition | Assets/Scripts/Objects/ActionObject.cs:116-122 | A type without a pose changes nothing. Otherwise the transform moves to the scene position and orientation. |
| ObjectsActionObject.ActionObject.ActionObjectUpdate | Assets/Scripts/Objects/ActionObject.cs:111-114 | The record is replaced and the position reset from it. |
| ObjectsActionObject.ActionObject.GetActionPoints | Assets/Scripts/Objects/ActionObject.cs:172-180 | Exactly the project's points whose parent is this object's id. |
| ArClassesActionObject.FlatModel | Assets/Scripts/ARClasses/ActionObject.cs:31-54 | A circle exactly for a cylinder or a sphere, scaled (r, h/2, r) or (r, r, r). A box is sized by `ROSToUnityScale`, and a mesh or no type gives the 0.05 square. |
| ArClassesActionObject.RevisionsAgreeOffBoxes | Assets/Scripts/ARClasses/ActionObject.cs:31-54 | The two revisions choose the same shape for every model, and the same scale for every model but a box. |
| ArClassesActionObject.ActionObject.constructor | Assets/Scripts/ARClasses/ActionObject.cs:17-29 | Id and type are copied into a default record, a type with a pose stores the converted transform, and there is no model yet. |
| ArClassesActionObject.ActionObject.CreateModel | Assets/Scripts/ARClasses/ActionObject.cs:31-54 | The model `FlatModel` chooses, left uncoloured. A null collision model throws `NullReferenceException`. |
| ArClassesActionObject.ActionObject.GetScenePosition | Assets/Scripts/ARClasses/ActionObject.cs:66-75 | The ground-plane position of the record's pose, or with a kinect its projection in the plane z = 0. A null pose throws. |
| ArClassesActionObject.ActionObject.GetSceneOrientation | Assets/Scripts/ARClasses/ActionObject.cs:82-85 | The canvas conversion of the record's orientation. A null pose throws. |
| ArClassesActionObject.ActionObject.ResetPosition | Assets/Scripts/ARClasses/ActionObject.cs:61-64 | The transform moves to the scene position and orientation whether or not the type has a pose. |
| ArClassesActionObject.ActionObject.ActionObjectUpdate | Assets/Scripts/ARClasses/ActionObject.cs:56-59 | The record is replaced, and then position and rotation are reset from it. |
| ArClassesActionObject.ActionObject.GetActionPoints | Assets/Scripts/ARClasses/ActionObject.cs:109-117 | Exactly the project's points whose parent is this object's id. |
| ArClassesActionObject.InitActionObject | Assets/Scripts/ARClasses/ActionObject.cs:17-29 | A type without a collision model is left without a model, with `NullReferenceException` escaping. |
| ActionObject3D.FindFirst | Assets/Scripts/ActionObject3D.cs:100-106 | The `foreach … break` scan finds the first element with the id, or the length when none has it. |
| ActionObject3D.FirstIndexAt | Assets/Scripts/ActionObject3D.cs:100-106 | An element with the id and none before it is the one the lookup finds. |
| ActionObject3D.SolidModel | Assets/Scripts/ActionObject3D.cs:79-161 | No model for a null `ObjectModel` or type None. A mesh or unknown type gives the cube at (0.05, 0.01, 0.05). Without custom models, box, cylinder and sphere get (SizeX, SizeY, SizeZ) through `ROSToUnityScale`, (r, h/2, r) and (r, r, r). |
| ActionObject3D.SolidDimensions | Assets/Scripts/ActionObject3D.cs:239-260 | Dimensions exist exactly for a box, a cylinder or a sphere, and a cylinder's are `ROSToUnityScale(r, r, h)`. |
| ActionObject3D.CustomBoxFirstMatch | Assets/Scripts/ActionObject3D.cs:94-107 | With custom models, a box is sized by a custom box exactly when one carries the type's name, and then by the first such box. Otherwise the prefab keeps its scale. |
| ActionObject3D.CustomCylinderFirstMatch | Assets/Scripts/ActionObject3D.cs:110-127 | With custom models, a cylinder is sized by a custom cylinder exactly when one carries the type's name, and then by the first such cylinder, at full height. Otherwise the prefab keeps its scale. |
| ActionObject3D.CustomSphereFirstMatch | Assets/Scripts/ActionObject3D.cs:128-145 | With custom models, a sphere is sized by a custom sphere exactly when one carries the type's name, and then by the first such sphere. Otherwise the prefab keeps its scale. |
| ActionObject3D.CustomCylinderNotHalved | Assets/Scripts/ActionObject3D.cs:110-127 | When the first custom cylinder with the type's name has the type's own size, it still differs from the default: the default halves the height and the custom one does not. The two agree only when the height is 0. |
| ActionObject3D.UpdateKeepsBox | Assets/Scripts/ActionObject3D.cs:94-107 | Without custom models, `UpdateModel` right after `CreateModel` gives a box the scale it already has. |
| ActionObject3D.ActionObject3D.constructor | Assets/Scripts/ActionObject3D.cs:79-161 | The inherited initialisation, then the model `SolidModel` names. |
| ActionObject3D.ActionObject3D.CreateModel | Assets/Scripts/ActionObject3D.cs:79-161 | The model `SolidModel` names replaces `Model`, and when it names none `Model` is left as it was. |
| ActionObject3D.ActionObject3D.UpdateModel | Assets/Scripts/ActionObject3D.cs:239-260 | A type without dimensions leaves the model alone. Otherwise the model is rescaled to them, or a missing model throws. |
| ActionObject3D.ActionObject3D.GetScenePosition | Assets/Scripts/ActionObject3D.cs:27-30 | The record's position converted to Unity. A null pose throws. |
| ActionObject3D.ActionObject3D.GetSceneOrientation | Assets/Scripts/ActionObject3D.cs:37-40 | The record's orientation converted to Unity. A null pose throws. |
| ActionObject3D.ActionObject3D.ResetPosition | Assets/Scripts/ActionObject.cs:64-67 | The transform moves to this class's scene position and orientation, and the record is kept. |
| ActionObject3D.ActionObject3D.ActionObjectUpdate | Assets/Scripts/ActionObject3D.cs:52-56 | The inherited update, renaming exactly when the names differ, then the reset from the new record. When the inherited update throws on a null parameter list, the transform is not reset. |
| GameManager.SetGameStateSets | Assets/Scripts/GameManager.cs:171-174 | `SetGameState(v)` sets the state to v and touches no other field. |
| GameManager.SceneOpenedDelays | Assets/Scripts/GameManager.cs:289-295 | A scene that arrives before the actions are ready sets the state to `LoadingScene`, stashes the scene, requests its opening and creates nothing. |
| GameManager.ProjectOpenedDelays | Assets/Scripts/GameManager.cs:315-322 | A project that arrives before the actions are ready is stashed with its scene and the request to open it. The state is unchanged. |
| GameManager.UpdateWaitsForConnection | Assets/Scripts/GameManager.cs:121-145 | Without a connection, `Update` changes nothing. |
| GameManager.UpdateServesSceneFirst | Assets/Scripts/GameManager.cs:121-133 | A pending scene is served before a pending project. The scene's request is cleared unless the actions are still not ready. |
| GameManager.UpdateOpensProjectWithBoth | Assets/Scripts/GameManager.cs:134-142 | A pending project opens only when both stashes are set, and opening clears them. With either missing only the request is dropped. |
| GameManager.ProjectOpenedCreatesScene | Assets/Scripts/GameManager.cs:315-345 | Once the actions are ready, `ProjectOpened` requests the scene's creation (among other calls) and leaves the stashes and flags alone. |
| GameManager.SceneOpenedStopsOnThrow | Assets/Scripts/GameManager.cs:296-307 | An exception other than `TimeoutException` escaping `CreateScene` leaves the state `LoadingScene`, with the scene's request last: no editor opens and no log is saved. |
| GameManager.ProjectOpenedStopsOnThrow | Assets/Scripts/GameManager.cs:324-344 | An exception other than `TimeoutException` from `CreateScene` or `CreateProject` leaves the state `LoadingProject`, with the request that threw last. |
| GameManager.SceneOpenedCreatesScene | Assets/Scripts/GameManager.cs:289-308 | Once the actions are ready, `SceneOpened` requests the scene's creation and no project's, and leaves the stashes and flags alone. |
| GameManager.SetterIgnoresEqual | Assets/Scripts/GameManager.cs:150-157 | Setting the connection status to the value it has does nothing. |
| GameManager.AwakeDisconnects | Assets/Scripts/GameManager.cs:186-188 | The status starts as `Connected`, its enum's first member, so `Awake`'s assignment of `Disconnected` always runs the disconnect branch: it reports the disconnect and destroys the project and the scene. |
| GameManager.ClosingEndsInNone | Assets/Scripts/GameManager.cs:350-368 | Closing a scene or a project ends in the state `None`. |
| GameManager.ConnectedDespiteFailedTypes | Assets/Scripts/GameManager.cs:213-239 | If fetching the object types fails while connecting, the disconnect is requested, yet the status still ends as `Connected`. |
| GameManager.FailedSystemInfoStaysDisconnected | Assets/Scripts/GameManager.cs:213-224 | A failed system-info request leaves a disconnected manager disconnected, after the failure notification. |
| GameManager.DelayedProjectIsDropped | Assets/Scripts/GameManager.cs:121-145 | If a scene and then a project both arrive early, the first ready frame opens the project's scene as a scene. The next frame finds no stashed scene, so the project is never created. |
| GameManager.GameManager.constructor | Assets/Scripts/GameManager.cs:52-68 | The fields' defaults: the first member of each enum, no stash and no request. |
| GameManager.GameManager.GetGameState | Assets/Scripts/GameManager.cs:163-165 | The current state. |
| GameManager.GameManager.SetGameState | Assets/Scripts/GameManager.cs:171-174 | The state is set and the change event raised. |
| GameManager.GameManager.OnConnectionStatusChanged | Assets/Scripts/GameManager.cs:213-239 | `Connected`: system info and registration are requested; a failure disconnects and notifies, and otherwise the types are updated and the status set. `Disconnected`: project and scene are destroyed. `Connecting` changes nothing. |
| GameManager.GameManager.SetConnectionStatus | Assets/Scripts/GameManager.cs:150-157 | Only a different value runs `OnConnectionStatusChanged`. |
| GameManager.GameManager.Awake | Assets/Scripts/GameManager.cs:186-188 | The status is set to `Disconnected`. |
| GameManager.GameManager.OnConnected | Assets/Scripts/GameManager.cs:203-206 | The status is set to `Connected`. |
| GameManager.GameManager.DisconnectFromSever | Assets/Scripts/GameManager.cs:255-258 | The websocket is closed and the status set to `Disconnected`. |
| GameManager.GameManager.UpdateActionObjects | Assets/Scripts/GameManager.cs:266-274 | The types are fetched and handed to `UpdateObjects`, and a failed request disconnects. |
| GameManager.GameManager.SceneOpened | Assets/Scripts/GameManager.cs:289-308 | Before the actions are ready the scene is stashed. After, it is created and the state moves to the scene editor, or a failure or timeout is logged. An exception other than a timeout ends the call right after `CreateScene`. |
| GameManager.GameManager.ProjectOpened | Assets/Scripts/GameManager.cs:315-345 | Before the actions are ready, scene and project are stashed. After, both are created in turn and the state moves to the project editor, or a failure or timeout is logged. An exception other than a timeout ends the call right after the creation that threw. |
| GameManager.GameManager.Update | Assets/Scripts/GameManager.cs:121-145 | One frame's check for a delayed opening, as `UpdateSpec` states. |
| GameManager.GameManager.SceneClosed | Assets/Scripts/GameManager.cs:350-356 | The state becomes `None` and the close event is raised. |
| GameManager.GameManager.ProjectClosed | Assets/Scripts/GameManager.cs:361-368 | The state becomes `None` and the close event is raised. |
| GameManager.GameManager.OpenSceneEditor | Assets/Scripts/GameManager.cs:378-381 | The state becomes `SceneEditor`. |
| GameManager.GameManager.OpenProjectEditor | Assets/Scripts/GameManager.cs:385-388 | The state becomes `ProjectEditor`. |

## Left out

**Numbers and library calls**
- IEEE-754 rounding, infinities and NaN: every `float` is a `real`. The distortion polynomial therefore cannot overflow, and a division by a zero w is the `NonFinite` point.
- The internals of `float.TryParse`: it is the parameter `parse: string -> Option<real>`.
- `XmlDocument.Load` and `SelectSingleNode`: a document is a map from block name to text, and a missing block is a missing key.

**Unity and the server**
- The Unity engine: `Instantiate`, `Destroy` and the scene graph, and the camera matrices and `Matrix4x4.inverse`. `Quaternion.LookRotation`, `Input` and `Image` are out too, as are `enabled` and game-object names. They become inputs or logged calls.
- `KinectConversion.SetProjectorTransform`: the rotation is stated through a `lookRotation` parameter.
- The server and its async calls. `WebsocketManager` requests are replaced by their answers (`Services`, `Replies`), and `await` is sequential.
- Exceptions other than `RequestFailedException` escaping from awaited calls are not modelled, except those of `CreateScene` and `CreateProject` in `GameManager`.
- `GameManager` members that only glue: `ConnectToSever`, `HandleProjectException`, `SetDefaultFramerate` and `Start`. The events the manager raises are entries of its effect log.
- `TransformConvertor`, `DataHelper` and the IO.Swagger types are not part of this model. The conversions are the fields of a `Convertor` parameter, and the records are datatypes. The generated `SceneObject` constructor is not visible, so the record an action object starts from is taken to have a null `Parameters` list.
- `ActionObjectMetadata` is a value in the registry, and an in-place flag update is a map update.
- `ActionMetadata` tables are a parameter of `GetActionMetadata`.
- `ROSToUnityCanvas`, called by `ARClasses/ActionObject.cs`, is defined in neither revision of `ProjectionCoordConversion`, so it is the parameter `toCanvas`.
- `CalibrationData` has no `K1..P2` fields, which the Utils `RemoveDistortion` reads, so the coefficients are a `Distortion` parameter.
- `CamDist` is the `distCoefs` field.
- The members the kinect glue calls that do not exist (`KinectPosition`, `UpdateProjectorTransform`) are not modelled. `ProjectionManager.SetupProjection` and `DestroyProjection` are logged calls; `SceneManager.DestroyScene` and `ProjectManager.DestroyProject` both log `DestroyProjection`.

**Parts of the code not modelled**
- `ActionObject.DestroyObject` calls itself unconditionally and never terminates, so it is not modelled.
- `ActionsManager.ObjectTypeUpdated` is not modelled. It would need `SceneManager.GetAllObjectsOfType` and each object's `UpdateModel` over the whole scene on every update.
- `SceneManager.CreateScene`, `SceneObjectAdded` and `UpdateActionObjects` only loop over `SpawnActionObject`, so they are not modelled separately.
- `SceneManager` holds the base `ActionObject`. `SpawnActionObject` does not run a subclass's `CreateModel`; each subclass's model is stated by its own constructor.
- SpawnActionObject: the subclass's `ActionObjectUpdate` override is not dispatched. The prefab's component class is a Unity asset. In `ActionObject3D`, the concrete subclass of the base class, the update ends with `ResetPosition`, which moves the object to the record's pose. The model leaves the spawned object at the prefab's transform instead; `ActionObject3D.ActionObject3D.ActionObjectUpdate` states the reset.
- SceneObjectUpdated: for the same reason, the model leaves the object's transform unchanged, where a subclass's override resets it to the new record's pose.
- The "AR Classes/" copies of `CalibrationData.cs` and `ActionPoint2D.cs` (with a space in the directory name) duplicate the modelled files and are not modelled again.
- The `DeleteActionObject` and `RemoveActionPoints` of `Objects/ActionObject.cs` and `ARClasses/ActionObject.cs` are not modelled again. They are identical to the base class's, which `BaseActionObject` models.
- `ActionObject3D`'s `UpdateObjectName` override, `BindParentToChild` and `GetModelCopy` are not modelled: they only touch the scene graph.
- The lookups of `Base.ActionPoint` that only repeat modelled ones are not modelled: `GetNamedOrientation`, `GetNamedOrientationByName`, `GetNamedOrientations`, `GetPoses`, `GetFirstOrientation` and `GetFirstOrientationFromDescendants`. The last two also do not type-check. The trivial `AnyOrientation`, `AnyJoints`, `GetName` and `GetId` and the visual members are out too.
- `ActionPoint2D` draws a canvas marker when a kinect exists; that instantiation is not modelled.
- `DataManager.Update`: the mouse button and the clicked world position are parameters.
- `StartEndAction.cs`, `EndAction.cs`, `LandingScreen.cs`, `Notifications.cs` and `Comunication.cs` are UI, preferences and networking. `ProjectionManager.cs` and both `KinectAzure.cs` files are lifecycle glue. None of them is part of this model.

**Nulls**
- A null `Data` record is not modelled, so neither is the `NullReferenceException` of `Base.ActionObject.ActionObjectUpdate`'s non-short-circuit `&`.
- A null `Image` component, and null `Box`/`Cylinder`/`Sphere` sub-records of a collision model, are not modelled. The collision model and the lists of an action point can be null.
- A null `Boxes`, `Cylinders` or `Spheres` list inside a non-null custom collision model is not modelled. `ActionObject3D` would throw `NullReferenceException` at ActionObject3D.cs:100, 118 or 136; no caller passes custom models.

**Ordering and preconditions**
- `Dictionary` iteration order is unspecified in .NET. Loops over a dictionary take its keys in any order, and `GetAllObjectsOfType` returns a set.
- `ProjectManager.ProjectManager.UpdateActionPoints` and `ProjectManager.ProjectManager.CreateProject` require distinct action-point ids that are neither "global" nor action-object ids. The source loops forever or misbehaves otherwise, and the action objects' ids are the parameter `aoKeys`.
- `ActionsManager.IsDescendantOfType`, `ObjectTypeAdded` and `UpdateObjects` take any registry. A walk that re-enters a passed entry is reported as `StackOverflow`, which in .NET ends the process; the partial registry stated for it is never observed.
