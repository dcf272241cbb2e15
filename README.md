# GRIP pipeline view, preview strip and camera-source life cycle in Dafny

GRIP builds image-processing pipelines out of sources (cameras, files), steps
(operations) and connections between their sockets. This project models three
pieces of stateful logic around that engine:

- **The pipeline view's bookkeeping** (`PipelineController`). The view keeps
  three child lists in step with the pipeline's events: source views, step
  views, and the connection layer. The connection layer starts with a 1x1 anchor
  rectangle, followed by connection views. Each event handler appends, inserts
  at an index, removes the view found for a model object, or moves a step view
  by a clamped distance. The `find*View` searches return the first view showing
  the given object, or throw `IllegalArgumentException`.
- **The preview strip** (`PreviewsController`). It keeps two lists that line up
  position by position: the sockets marked as previewed, and one preview view
  per socket. A socket is added only if it is not listed yet. Un-previewing a
  listed socket removes it and the view at the same position.
- **The camera source's start/stop life cycle**, as its unit test states it. The
  model includes the test's mock frame grabber and mock grabber factory. A
  second `start` without a `stop` throws `IllegalStateException`. A grabber
  that fails to start surfaces as an `IOException`. `stop` always leaves the
  source stopped. An address with no URL protocol is refused when the source
  is created.

Modules:

- `Outcomes` holds the Java exception kinds and the `Result`/`Outcome` types that
  model "returns or throws".
- `JavaLists` holds the `java.util.List` operations the controllers use and the
  search loops.
- `PipelineModel` holds the pipeline objects the views show. Their `id` field
  stands for Java reference identity.
- `PipelineUi`, `PreviewUi` and `CameraSources` hold one class per controller or
  test class.

The event handlers run their work through `Platform.runLater`, so an exception
they throw surfaces on the UI thread. In the model it is the handler's returned
`Outcome`.

A malformed camera address fails with an `IOException`, as
`testInvalidURLThrowsIOException` expects.

## Model

| member | source | states |
|---|---|---|
| `JavaLists.Insert` | src/main/java/edu/wpi/grip/ui/pipeline/PipelineController.java:229 | `add(index, view)` puts the view at `index`. Earlier elements stay, later ones shift one place right, and the multiset grows by exactly the view. |
| `JavaLists.RemoveAt` | src/main/java/edu/wpi/grip/ui/pipeline/PipelineController.java:252 | `remove(index)` drops exactly that element. Earlier elements stay, later ones shift one place left. |
| `JavaLists.InsertThenRemove` | src/main/java/edu/wpi/grip/ui/pipeline/PipelineController.java:228-229 | Removing the inserted step view gives back the old list, so the existing views keep their order. |
| `JavaLists.RemoveThenInsert` | src/main/java/edu/wpi/grip/ui/pipeline/PipelineController.java:252-253 | Re-inserting a removed view at its old index gives back the old list. |
| `JavaLists.FirstMatch` | src/main/java/edu/wpi/grip/ui/pipeline/PipelineController.java:134-168 | The result is the first index whose view shows the object. It is None exactly when no view shows it. |
| `JavaLists.IndexWhere` | src/main/java/edu/wpi/grip/ui/pipeline/PipelineController.java:147-155 | The early-returning search loop returns the first matching index. |
| `JavaLists.FirstInRows` | src/main/java/edu/wpi/grip/ui/pipeline/PipelineController.java:94-128 | The result is the first view, and in it the first slot, that holds the socket. It is None exactly when no view holds it. |
| `JavaLists.IndexInRows` | src/main/java/edu/wpi/grip/ui/pipeline/PipelineController.java:110-117 | The nested search loops return that first position. |
| `JavaLists.RemoveFirst` | src/main/java/edu/wpi/grip/ui/pipeline/PipelineController.java:238 | `remove(Object)` leaves a list without the element unchanged. Otherwise it takes out exactly one copy of the element. |
| `JavaLists.RemoveFirstAt` | src/main/java/edu/wpi/grip/ui/pipeline/PipelineController.java:237-238 | Removing by value an element that has no equal copy before it removes exactly its position. |
| `JavaLists.FoundElementIsFirstEqual` | src/main/java/edu/wpi/grip/ui/pipeline/PipelineController.java:246-248 | The view the search finds is where `indexOf` finds it, and `remove(view)` removes that position. |
| `JavaLists.Move` | src/main/java/edu/wpi/grip/ui/pipeline/PipelineController.java:252-253 | `remove(oldIndex)` then `add(newIndex, view)` keeps the length and puts the moved view at the new index. |
| `JavaLists.MoveIsReordering` | src/main/java/edu/wpi/grip/ui/pipeline/PipelineController.java:252-253 | A move keeps the length and the multiset, puts the moved view at the new index, and keeps every other view in its relative order. |
| `JavaLists.MoveInPlace` | src/main/java/edu/wpi/grip/ui/pipeline/PipelineController.java:251 | A move to the old index leaves the list unchanged. |
| `PipelineUi.DrawnViews` | src/main/java/edu/wpi/grip/ui/pipeline/PipelineController.java:87-89 | `getConnections` lists exactly the connection views among the layer's children, never the anchor, and is no longer than the children. |
| `PipelineUi.DrawnViewsAppend` | src/main/java/edu/wpi/grip/ui/pipeline/PipelineController.java:87-89 | The connection listing of two child lists put together is the two listings put together. |
| `PipelineUi.AnchorIsNotListed` | src/main/java/edu/wpi/grip/ui/pipeline/PipelineController.java:57 | Adding the anchor rectangle does not change the connection listing. |
| `PipelineUi.DrawnViewsRemoveFirst` | src/main/java/edu/wpi/grip/ui/pipeline/PipelineController.java:268-269 | Removing a connection view from the layer removes it from the listing and nothing else. |
| `PipelineUi.JavaIntAdd` | src/main/java/edu/wpi/grip/ui/pipeline/PipelineController.java:249 | Java `int` addition gives a 32-bit value that is congruent to the true sum modulo 2^32. |
| `PipelineUi.ClampedIndex` | src/main/java/edu/wpi/grip/ui/pipeline/PipelineController.java:249 | The new index always lies in [0, size - 1]. It equals the requested index whenever that index is in range. |
| `PipelineUi.ClampedIndexIsNearest` | src/main/java/edu/wpi/grip/ui/pipeline/PipelineController.java:249 | No index of the list is closer to the requested one than the clamped index. |
| `PipelineUi.MovedIndexAsWritten` | src/main/java/edu/wpi/grip/ui/pipeline/PipelineController.java:249 | The new index as the code computes it always lies in the list. Whenever `oldIndex + distance` overflows upwards it is 0, the front of the list. |
| `PipelineUi.MovedIndexOverflows` | src/main/java/edu/wpi/grip/ui/pipeline/PipelineController.java:249 | As written, moving the second of three steps by Integer.MAX_VALUE gives index 0. The clamp asks for 2. |
| `PipelineUi.MovedIndexAsWrittenAgrees` | src/main/java/edu/wpi/grip/ui/pipeline/PipelineController.java:249 | When `oldIndex + distance` does not overflow, the code as written gives the clamped index. |
| `PipelineUi.PipelineController.constructor` | src/main/java/edu/wpi/grip/ui/pipeline/PipelineController.java:32-39 | The three containers start empty. |
| `PipelineUi.PipelineController.Initialize` | src/main/java/edu/wpi/grip/ui/pipeline/PipelineController.java:50-57 | After the existing children come one source view per pipeline source and one step view per step, in pipeline order, then the anchor. The connection listing is unchanged. |
| `PipelineUi.PipelineController.FindInputSocketView` | src/main/java/edu/wpi/grip/ui/pipeline/PipelineController.java:94-104 | The result is the first step view and slot showing the input socket. It fails with IllegalArgument exactly when no step view shows it. |
| `PipelineUi.PipelineController.FindOutputSocketView` | src/main/java/edu/wpi/grip/ui/pipeline/PipelineController.java:110-128 | The step views are searched before the source views. It fails with IllegalArgument exactly when neither shows the socket. |
| `PipelineUi.PipelineController.FindSourceView` | src/main/java/edu/wpi/grip/ui/pipeline/PipelineController.java:134-142 | The result is the first source view showing the source. Otherwise it fails with IllegalArgument. |
| `PipelineUi.PipelineController.FindStepView` | src/main/java/edu/wpi/grip/ui/pipeline/PipelineController.java:147-155 | The result is the first step view showing the step. Otherwise it fails with IllegalArgument. |
| `PipelineUi.PipelineController.FindConnectionView` | src/main/java/edu/wpi/grip/ui/pipeline/PipelineController.java:160-168 | The result is the first listed connection view showing the connection. Otherwise it fails with IllegalArgument. |
| `PipelineUi.PipelineController.OnSourceAdded` | src/main/java/edu/wpi/grip/ui/pipeline/PipelineController.java:215-217 | The new source's view is appended. The other lists do not change. |
| `PipelineUi.PipelineController.OnSourceRemoved` | src/main/java/edu/wpi/grip/ui/pipeline/PipelineController.java:220-222 | Exactly the first view showing the source is removed. It throws IllegalArgument, with nothing changed, when there is none. |
| `PipelineUi.PipelineController.OnStepAdded` | src/main/java/edu/wpi/grip/ui/pipeline/PipelineController.java:225-231 | The view is inserted at the event's index, or at the end when there is none. An index outside [0, size] throws IndexOutOfBounds and changes nothing. |
| `PipelineUi.PipelineController.OnStepRemoved` | src/main/java/edu/wpi/grip/ui/pipeline/PipelineController.java:234-241 | Exactly the first view showing the step is removed. It throws IllegalArgument, with nothing changed, when there is none. |
| `PipelineUi.PipelineController.OnStepMoved` | src/main/java/edu/wpi/grip/ui/pipeline/PipelineController.java:244-256 | The step list becomes the move of the found view from its index to the clamp of its index plus the distance, taken without `int` wrap-around. With `MoveInPlace`, it is unchanged when the two are equal. |
| `PipelineUi.PipelineController.OnConnectionAdded` | src/main/java/edu/wpi/grip/ui/pipeline/PipelineController.java:174-212 | The connection view is appended exactly when both of its sockets are shown. Otherwise IllegalArgument is thrown and nothing changes. |
| `PipelineUi.PipelineController.OnConnectionRemoved` | src/main/java/edu/wpi/grip/ui/pipeline/PipelineController.java:265-272 | Exactly the first listed view for the connection leaves the layer and the listing. It throws IllegalArgument, with nothing changed, when there is none. |
| `PreviewUi.Previewed` | src/main/java/edu/wpi/grip/ui/preview/PreviewsController.java:39-51 | A previewed socket ends up listed and the earlier list stays a prefix. An un-previewed socket loses one listed copy, if it had one, and nothing else changes. |
| `PreviewUi.PreviewedKeepsNoDuplicates` | src/main/java/edu/wpi/grip/ui/preview/PreviewsController.java:39-43 | A previewed-socket list without duplicates keeps that property after any event. |
| `PreviewUi.PreviewedListsExactlyWhenPreviewed` | src/main/java/edu/wpi/grip/ui/preview/PreviewsController.java:39-51 | After an event the socket is listed exactly when `isPreviewed()` was true. |
| `PreviewUi.PreviewedLeavesOthers` | src/main/java/edu/wpi/grip/ui/preview/PreviewsController.java:41-49 | Other sockets keep their membership. Re-previewing a listed socket or un-previewing an unlisted one changes nothing. A new socket is appended. |
| `PreviewUi.PreviewedIsIdempotent` | src/main/java/edu/wpi/grip/ui/preview/PreviewsController.java:41 | Applying the same event twice has the same effect as applying it once. |
| `PreviewUi.PreviewsController.constructor` | src/main/java/edu/wpi/grip/ui/preview/PreviewsController.java:28 | Both lists start empty, so the invariant holds from the start. |
| `PreviewUi.PreviewsController.OnSocketPreviewChanged` | src/main/java/edu/wpi/grip/ui/preview/PreviewsController.java:35-54 | The event keeps the two lists aligned and duplicate-free. Un-previewing removes the socket and the view at the same index. |
| `CameraSources.MockFrameGrabber.constructor` | core/src/test/java/edu/wpi/grip/core/sources/CameraSourceTest.java:38-48 | The frame has 480 rows, 641 columns and 3 channels. Every element (y, x, z) holds y + x + z. The grabber does not throw at start. |
| `CameraSources.MockFrameGrabber.Start` | core/src/test/java/edu/wpi/grip/core/sources/CameraSourceTest.java:51-55 | It throws a FrameGrabber exception exactly when `shouldThrowAtStart` is set. |
| `CameraSources.MockFrameGrabber.Grab` | core/src/test/java/edu/wpi/grip/core/sources/CameraSourceTest.java:68-70 | Every call returns the same frame. |
| `CameraSources.MockFrameGrabber.SetShouldThrowAtStart` | core/src/test/java/edu/wpi/grip/core/sources/CameraSourceTest.java:77-79 | It sets the flag. |
| `CameraSources.MockFrameGrabberFactory.constructor` | core/src/test/java/edu/wpi/grip/core/sources/CameraSourceTest.java:83 | The factory owns one new grabber that does not throw at start. |
| `CameraSources.MockFrameGrabberFactory.CreateForDevice` | core/src/test/java/edu/wpi/grip/core/sources/CameraSourceTest.java:85-87 | It returns the factory's one grabber, whatever the device number. |
| `CameraSources.MockFrameGrabberFactory.CreateForAddress` | core/src/test/java/edu/wpi/grip/core/sources/CameraSourceTest.java:90-92 | It returns the factory's one grabber, whatever the address. |
| `CameraSources.CameraSource.constructor` | core/src/test/java/edu/wpi/grip/core/sources/CameraSourceTest.java:110 | A new source is stopped and uses the given grabber. |
| `CameraSources.CameraSource.IsStarted` | core/src/test/java/edu/wpi/grip/core/sources/CameraSourceTest.java:127-129 | It reports the started state. |
| `CameraSources.CameraSource.Start` | core/src/test/java/edu/wpi/grip/core/sources/CameraSourceTest.java:124-152 | A started source throws IllegalState. A grabber start failure throws IOException. Otherwise the source becomes started. It also states that a refused source stays started and a failed one stays stopped; these two are assumptions (see Left out). |
| `CameraSources.CameraSource.Stop` | core/src/test/java/edu/wpi/grip/core/sources/CameraSourceTest.java:148-150 | It leaves the source stopped. It is also permitted on a stopped source, which is an assumption (see Left out). |
| `CameraSources.HasProtocol` | core/src/test/java/edu/wpi/grip/core/sources/CameraSourceTest.java:118-122 | The address, trimmed of characters up to U+0020 at both ends and past one leading `url:` in any case, starts with a letter, then scheme characters, then `:`. |
| `CameraSources.NotAUrlHasNoProtocol` | core/src/test/java/edu/wpi/grip/core/sources/CameraSourceTest.java:120 | "Not a URL at all!" has no URL protocol. |
| `CameraSources.SurroundingBlanksAreIgnored` | core/src/test/java/edu/wpi/grip/core/sources/CameraSourceTest.java:118-122 | A blank before or after an address does not change whether it has a protocol. |
| `CameraSources.UrlPrefixIsSkipped` | core/src/test/java/edu/wpi/grip/core/sources/CameraSourceTest.java:118-122 | For a trimmed address not itself starting with `url:`, prefixing `url:` or `URL:` does not change whether it has a protocol. |
| `CameraSources.UrlPrefixAloneHasNoProtocol` | core/src/test/java/edu/wpi/grip/core/sources/CameraSourceTest.java:118-122 | The address `url:` names no protocol. |
| `CameraSources.CreateFromAddress` | core/src/test/java/edu/wpi/grip/core/sources/CameraSourceTest.java:118-122 | Creation fails with IOException exactly when the address has no protocol. Otherwise it yields a new stopped source. |
| `CameraSources.SetUp` | core/src/test/java/edu/wpi/grip/core/sources/CameraSourceTest.java:95-111 | The fixture gives a fresh mock factory and a stopped source on device 0 that uses the factory's grabber. |
| `CameraSources.TestInvalidUrlThrowsIOException` | core/src/test/java/edu/wpi/grip/core/sources/CameraSourceTest.java:118-122 | Creating a source from "Not a URL at all!" fails with IOException. |
| `CameraSources.TestCanStopAndStart` | core/src/test/java/edu/wpi/grip/core/sources/CameraSourceTest.java:124-130 | The source is started after `start` and stopped after `stop`. |
| `CameraSources.TestStartRethrowsIfFailure` | core/src/test/java/edu/wpi/grip/core/sources/CameraSourceTest.java:132-137 | With the grabber set to throw, `start` fails with IOException. |
| `CameraSources.TestStartingTwiceShouldThrowIllegalState` | core/src/test/java/edu/wpi/grip/core/sources/CameraSourceTest.java:139-152 | The first `start` succeeds and the second throws IllegalState. The following `stop` succeeds and leaves the source stopped. |

## Left out

- Event-bus registration and unregistration (`eventBus.register`/`unregister`): each handler is a direct method call.
- `Platform.runLater`: handlers run at once. An exception they throw becomes their returned `Outcome` instead of surfacing on the UI thread.
- JavaFX nodes and layout: each view is reduced to the model object it shows. A step or source view shows one socket view per socket, in socket order.
- `PipelineUi.PipelineController.OnConnectionAdded`: the handle geometry of `addConnectionView` is not modelled. That is the floating-point midpoints of the socket bounds, the transform listeners and their `synchronized` block. Only the two socket lookups and the final `add` are modelled.
- `PipelineUi.PipelineController.FindInputSocketView`, `FindOutputSocketView`: the result is the socket view's position (view index, slot index), not the socket view object.
- `getPipeline`, `getSources`, `getSteps`: these getters only return the pipeline or read-only wrappers of the lists. The lists are the controller's fields.
- `PipelineUi.PipelineController.OnStepMoved`: the new index is the clamp of the true sum `oldIndex + distance`, which does not wrap. The code's `int` sum wraps for a distance near `Integer.MAX_VALUE` and then sends the step to the front (see Findings). `MovedIndexAsWritten` models the code as written, and `MovedIndexAsWrittenAgrees` shows the two agree whenever the sum fits in an `int`.
- `CameraSources.MockFrameGrabber`: `stop` and `trigger` have empty bodies. `release` frees the indexer's native memory, which the model has no notion of. The frame's 16-bit storage is not modelled; its values are at most 1121, so the frame stores them exactly.
- `CameraSources.CameraSource`: the source class itself is not part of this model. Its behaviour is taken from what the test asserts, plus the three assumptions on the next two lines. The acquisition thread, frame delivery and its events are concurrent and are left out.
- `CameraSources.CameraSource.Start`: two clauses are assumptions the test does not check. After a refused second start the source is still started; the test stops it in a `finally` without asking. After a grabber failure the source is still stopped; the test checks only the exception.
- `CameraSources.CameraSource.Stop`: that `stop` is permitted when the source is already stopped is an assumption. The test only ever stops a started source.
- `CameraSources.HasProtocol`: scheme letters and digits are ASCII only, while `java.net.URL` accepts any Unicode letter or digit. A protocol with no stream handler (an unknown protocol) is accepted here, while `java.net.URL` refuses it.
- `CameraSources.CreateFromAddress`: an address is refused only when `java.net.URL` finds no protocol in it. Any other way `java.net.URL` can reject an address is not modelled, such as an unknown protocol handler. Scheme letters are ASCII only, while `java.net.URL` accepts any Unicode letter or digit. The real grabber factory is replaced by the mock one.
- MainWindowController.java, AddSourceController.java, PaletteController.java, Main.java, PointSizeSocketPreviewView.java and GRIPCoreModule.java are not part of this model. They hold dialogs, file I/O, reflection, application start-up, text display and dependency wiring.
- The pipeline engine is not part of this model: its scheduler, the socket type checks and its connection rules.

## Findings

| source | as written | input that shows it | evidently intended | confidence | as-written member | corrected member |
|---|---|---|---|---|---|---|
| src/main/java/edu/wpi/grip/ui/pipeline/PipelineController.java:249 | `oldIndex + event.getDistance()` is 32-bit `int` addition and wraps for a large positive distance. | Three steps; move the second by 2147483647. The sum wraps to -2147483648, so the new index is 0 and the step goes to the front. | Clamp to the last index, 2. | Medium, not executed. This assumes `getDistance()` returns `int`; the assignment to `int` compiles only for `int` or a narrower type. | `PipelineUi.MovedIndexAsWritten`, `PipelineUi.MovedIndexOverflows` | `PipelineUi.ClampedIndexIsNearest` |
