# Story viewer navigation, in Dafny

This project models the navigation core of the C2M story viewer. The viewer is a full-screen pager of users. Each user's page plays that user's story segments (images and videos) one after the other, under a segmented progress bar.

The model has four modules:

- `StoryData`: the `Story` and `StoryUser` values.
- `ProgressState`: the process-wide progress table (`MainActivity.progressState`, a `SparseIntArray`). It maps a page position to the index of the segment that page last moved to with a next or previous move. A key that was never written reads as 0.
- `StoryDisplay`: one user's page (`StoryDisplayFragment`), modelled as a class. Its fields are `counter` (the segment cursor), `pressTime`, the flags `onResumeCalled` and `onVideoPrepared`, whether a player exists, whether the page controller is attached, and a reference to the shared table.
  - The cursor's moves are also written out as a pure value-level specification: `Step` for one move and `Walk` for a sequence of moves. The class methods `OnNext` and `OnPrev` are proved to implement `Step`. The lemmas about `Step` and `Walk` state the safety properties:
    - The cursor never leaves the segment list.
    - The saved entry is always a valid segment, equals the cursor after a move, and no other page's entry changes.
    - Taps at either end hand off to the page controller, and taps anywhere else are handled within the user by a skip or a reverse.
- `MainScreen`: the hosting screen (`MainActivity`), also a class. It covers the page-controller guards (`nextPageView`, `backPageView`), the fake-drag bookkeeping (`prevDragPosition` and the per-frame offsets), `onPageSelected`, the scroll-cancel hand-back and the video/image split of `preLoadStories`.
  - The split is proved exact and order-preserving against a reference filter `Urls`.
  - The drag offsets are proved to telescope: over one animation they add up to plus or minus the last frame value.

Effects on the collaborators are recorded in an append-only `log` of abstract events, in call order. The collaborators are the media player, the progress bar and the pager, and they are otherwise opaque. Examples of events are `PlayerPlayWhenReady(false)`, `BarSkip`, `NextPageRequested`, `DragStarted(true, width)` and `FakeDragBy(offset)`.

Values the source reads from foreign objects come in as method parameters:

- the clock (`now`)
- the player's duration
- the pager's `currentItem`, the adapter's page count (0 when there is no adapter) and the pager's width
- the result of `beginFakeDrag()`

Every page method is modelled as its own operation. The order in which the platform calls lifecycle methods is not assumed anywhere.

Where the code and its surroundings could be read two ways, the model follows the code:

- `skip` and `reverse` on the progress bar are only events. The model does not assume that they call `onNext` or `onPrev` back.
- `onVideoPrepared` is set on the first "loading finished" report and never cleared, just as in the code.
- A page can only be built when the saved entry for its position names one of its segments. Why this is stricter than the code is explained under "## Left out".

## Model

| member | source | states |
|---|---|---|
| `ProgressState.LookupAbsent` | app/src/main/java/com/c2m/storyviewer/screen/MainActivity.kt:198-200 | a position nothing was saved under reads back as segment 0 |
| `ProgressState.LookupAfterPut` | app/src/main/java/com/c2m/storyviewer/screen/StoryDisplayFragment.kt:307-313 | after saving a value under a position, restoring that position gives the value, and every other position reads as before |
| `ProgressState.ProgressTable.constructor` | app/src/main/java/com/c2m/storyviewer/screen/MainActivity.kt:199 | the shared table starts empty |
| `ProgressState.ProgressTable.Put` | app/src/main/java/com/c2m/storyviewer/screen/StoryDisplayFragment.kt:308 | a put replaces the entry for its key and leaves all others |
| `ProgressState.Lookup` | app/src/main/java/com/c2m/storyviewer/screen/StoryDisplayFragment.kt:311-313 | reading the table: the stored value, or 0 for a position never written (the `SparseIntArray.get` default); its properties are `LookupAbsent` and `LookupAfterPut` |
| `StoryDisplay.Step` | app/src/main/java/com/c2m/storyviewer/screen/StoryDisplayFragment.kt:116-130 | one next or previous move of the cursor with its save, the specification `OnNext` and `OnPrev` implement; its properties are `StepInRange`, `StepMoves` and `StepSaves` |
| `StoryDisplay.StepInRange` | app/src/main/java/com/c2m/storyviewer/screen/StoryDisplayFragment.kt:116-130 | a next or previous move keeps both the cursor and the page's saved entry on existing segments |
| `StoryDisplay.StepMoves` | app/src/main/java/com/c2m/storyviewer/screen/StoryDisplayFragment.kt:116-130 | a next move changes something iff the cursor is not on the last segment, and then advances exactly one; a previous move changes something iff the cursor is not on the first, and then goes back exactly one |
| `StoryDisplay.StepSaves` | app/src/main/java/com/c2m/storyviewer/screen/StoryDisplayFragment.kt:116-130 | a move that changes the cursor saves the new index under the page's position, a refused move changes nothing (no save), and no move changes another page's entry |
| `StoryDisplay.WalkInRange` | app/src/main/java/com/c2m/storyviewer/screen/StoryDisplayFragment.kt:116-130 | over any sequence of next/previous moves, the cursor and the saved entry stay on existing segments, so `stories[counter]` is always a valid access |
| `StoryDisplay.WalkSaves` | app/src/main/java/com/c2m/storyviewer/screen/StoryDisplayFragment.kt:116-130 | after any sequence of moves, either nothing changed or the saved entry equals the final cursor; other pages' entries are untouched |
| `StoryDisplay.WalkForward` | app/src/main/java/com/c2m/storyviewer/screen/StoryDisplayFragment.kt:123-130 | n next moves from segment c land on min(c + n, last segment) |
| `StoryDisplay.WalkBackward` | app/src/main/java/com/c2m/storyviewer/screen/StoryDisplayFragment.kt:116-121 | n previous moves from segment c land on max(c - n, 0) |
| `StoryDisplay.TapRouting` | app/src/main/java/com/c2m/storyviewer/screen/StoryDisplayFragment.kt:237-250 | a next tap (and a player error) is handled in place, by a skip, iff a next move would advance; otherwise it goes to the page controller. A previous tap reverses in place iff a previous move would go back; otherwise it goes to the page controller |
| `StoryDisplay.NextTap` | app/src/main/java/com/c2m/storyviewer/screen/StoryDisplayFragment.kt:237-242 | the next tap and the player error hand off on the last segment and stay in place elsewhere (also lines 193-197); related to `Step` by `TapRouting` |
| `StoryDisplay.PrevTap` | app/src/main/java/com/c2m/storyviewer/screen/StoryDisplayFragment.kt:244-249 | the previous tap hands off on the first segment and stays in place elsewhere; related to `Step` by `TapRouting` |
| `StoryDisplay.LongHold` | app/src/main/java/com/c2m/storyviewer/screen/StoryDisplayFragment.kt:269 | a touch-up is consumed when the hold exceeded the 500 ms limit; its properties are `LongHoldThreshold` |
| `StoryDisplay.PlaybackGated` | app/src/main/java/com/c2m/storyviewer/screen/StoryDisplayFragment.kt:89 | a video segment whose player has not reported being prepared holds playback back; used by `OnResume` |
| `StoryDisplay.LongHoldThreshold` | app/src/main/java/com/c2m/storyviewer/screen/StoryDisplayFragment.kt:266-270 | a release up to 500 ms after the press is not consumed and one 501 ms after is; once a hold counts as long it stays long |
| `StoryDisplay.StoryDisplayFragment.NewInstance` | app/src/main/java/com/c2m/storyviewer/screen/StoryDisplayFragment.kt:331-338 | a new page starts on segment 0 with all flags clear and the invariant (cursor and saved entry in range) established |
| `StoryDisplay.StoryDisplayFragment.OnAttach` | app/src/main/java/com/c2m/storyviewer/screen/StoryDisplayFragment.kt:76-79 | the page controller becomes reachable; nothing else changes |
| `StoryDisplay.StoryDisplayFragment.OnViewCreated` | app/src/main/java/com/c2m/storyviewer/screen/StoryDisplayFragment.kt:69-74 | shows the current segment, then sets the bars up with the segment count, the position and 4000 ms |
| `StoryDisplay.StoryDisplayFragment.UpdateStory` | app/src/main/java/com/c2m/storyviewer/screen/StoryDisplayFragment.kt:137-187 | stops any player; a video segment gets the old player released and a new one prepared (and playing if the page was resumed); an image segment is loaded instead |
| `StoryDisplay.StoryDisplayFragment.SavePosition` | app/src/main/java/com/c2m/storyviewer/screen/StoryDisplayFragment.kt:307-309 | writes exactly this page's entry of the shared table |
| `StoryDisplay.StoryDisplayFragment.RestorePosition` | app/src/main/java/com/c2m/storyviewer/screen/StoryDisplayFragment.kt:311-313 | returns the saved entry of this page, which is always one of its segments |
| `StoryDisplay.StoryDisplayFragment.OnStart` | app/src/main/java/com/c2m/storyviewer/screen/StoryDisplayFragment.kt:81-84 | the cursor becomes the saved entry and stays in range |
| `StoryDisplay.StoryDisplayFragment.OnResume` | app/src/main/java/com/c2m/storyviewer/screen/StoryDisplayFragment.kt:86-103 | marks the page resumed; on an unprepared video it only pauses the player (`playWhenReady = false`) and starts no bar; otherwise it seeks to 5 ms, plays, and starts the bars from the first segment, or from the saved one when not on the first |
| `StoryDisplay.StoryDisplayFragment.OnPause` | app/src/main/java/com/c2m/storyviewer/screen/StoryDisplayFragment.kt:105-109 | pauses the player (`playWhenReady = false`) and abandons the bars |
| `StoryDisplay.StoryDisplayFragment.OnComplete` | app/src/main/java/com/c2m/storyviewer/screen/StoryDisplayFragment.kt:111-114 | releases the player and asks the page controller for the next page |
| `StoryDisplay.StoryDisplayFragment.OnDestroyView` | app/src/main/java/com/c2m/storyviewer/screen/StoryDisplayFragment.kt:132-135 | releases the player |
| `StoryDisplay.StoryDisplayFragment.OnPrev` | app/src/main/java/com/c2m/storyviewer/screen/StoryDisplayFragment.kt:116-121 | implements a previous `Step` on the cursor and the shared table; shows the new segment only when it moved, otherwise changes nothing; keeps the invariant |
| `StoryDisplay.StoryDisplayFragment.OnNext` | app/src/main/java/com/c2m/storyviewer/screen/StoryDisplayFragment.kt:123-130 | implements a next `Step` on the cursor and the shared table; shows the new segment only when it moved, otherwise changes nothing; keeps the invariant |
| `StoryDisplay.StoryDisplayFragment.OnPlayerError` | app/src/main/java/com/c2m/storyviewer/screen/StoryDisplayFragment.kt:190-198 | on the last segment asks the page controller for the next page, elsewhere skips (the same routing as a next tap) |
| `StoryDisplay.StoryDisplayFragment.OnIsLoadingChanged` | app/src/main/java/com/c2m/storyviewer/screen/StoryDisplayFragment.kt:200-213 | loading started: records the time and pauses; loading finished: gives the current bar the player's duration (8000 ms without a player), marks the video prepared and resumes (once the page has been resumed) |
| `StoryDisplay.StoryDisplayFragment.OnClick` | app/src/main/java/com/c2m/storyviewer/screen/StoryDisplayFragment.kt:235-252 | next zone: next page on the last segment, skip elsewhere; previous zone: previous page on the first segment, reverse elsewhere; any other view: nothing |
| `StoryDisplay.StoryDisplayFragment.OnTouchView` | app/src/main/java/com/c2m/storyviewer/screen/StoryDisplayFragment.kt:258-273 | touch-down records the press time, pauses and is not consumed; touch-up resumes (once the page has been resumed) and is consumed iff the hold exceeded 500 ms; other actions do nothing |
| `StoryDisplay.StoryDisplayFragment.PauseCurrentStory` | app/src/main/java/com/c2m/storyviewer/screen/StoryDisplayFragment.kt:315-318 | pauses the player (`playWhenReady = false`, if there is one) and pauses the bars |
| `StoryDisplay.StoryDisplayFragment.ResumeCurrentStory` | app/src/main/java/com/c2m/storyviewer/screen/StoryDisplayFragment.kt:320-326 | does nothing until the page has been resumed; then plays (if there is a player) and resumes the bars |
| `MainScreen.DragOffset` | app/src/main/java/com/c2m/storyviewer/screen/MainActivity.kt:189-190 | the offset of one frame: the change of the animated value, negated for a forward drag; summed over a drag by `OffsetsTelescope` |
| `MainScreen.OffsetsTelescope` | app/src/main/java/com/c2m/storyviewer/screen/MainActivity.kt:186-193 | the offsets emitted for a sequence of frame values add up to the direction times (last value − starting previous value): from 0 to the width, exactly one page left (forward) or right (back) |
| `MainScreen.UrlsSnoc` | app/src/main/java/com/c2m/storyviewer/screen/MainActivity.kt:101-106 | one more story adds its url to the end of the list of its own kind and nothing to the other |
| `MainScreen.UrlsAppend` | app/src/main/java/com/c2m/storyviewer/screen/MainActivity.kt:100-108 | the split keeps traversal order: the urls of earlier stories come before those of later ones |
| `MainScreen.PartitionExact` | app/src/main/java/com/c2m/storyviewer/screen/MainActivity.kt:100-108 | the video list and the image list together hold every story url exactly as often as it occurs, and their lengths add up to the number of stories |
| `MainScreen.UrlsMembers` | app/src/main/java/com/c2m/storyviewer/screen/MainActivity.kt:102-106 | a url is in the video (image) list iff some video (image) story has that url |
| `MainScreen.PreLoadStories` | app/src/main/java/com/c2m/storyviewer/screen/MainActivity.kt:96-111 | the two lists built by the nested loops are exactly the video urls and the image urls of all stories of all users, in user-then-story order |
| `MainScreen.MainActivity.constructor` | app/src/main/java/com/c2m/storyviewer/screen/MainActivity.kt:38 | starts on page 0 with no drag in progress |
| `MainScreen.MainActivity.BackPageView` | app/src/main/java/com/c2m/storyviewer/screen/MainActivity.kt:47-55 | starts a backward drag only when there is a page before the current one (and no drag is moving the pager); at page 0 it does nothing |
| `MainScreen.MainActivity.NextPageView` | app/src/main/java/com/c2m/storyviewer/screen/MainActivity.kt:57-68 | starts a forward drag only when a next page exists among the pager's pages, so never past the end; on the last page it only shows "All stories displayed." |
| `MainScreen.MainActivity.FakeDrag` | app/src/main/java/com/c2m/storyviewer/screen/MainActivity.kt:160-165 | a drag starts only when the previous frame value is 0 and the pager accepts; otherwise nothing changes |
| `MainScreen.MainActivity.OnAnimationUpdate` | app/src/main/java/com/c2m/storyviewer/screen/MainActivity.kt:186-193 | each frame drags by (value − previous value) × (−1 forward, +1 back) and remembers the value; the total dragged stays ± the last value |
| `MainScreen.MainActivity.OnAnimationEnd` | app/src/main/java/com/c2m/storyviewer/screen/MainActivity.kt:168-174 | detaches the animation, ends the fake drag if one is on, and resets the previous value to 0 |
| `MainScreen.MainActivity.OnAnimationCancel` | app/src/main/java/com/c2m/storyviewer/screen/MainActivity.kt:176-182 | the same as the end of the animation |
| `MainScreen.MainActivity.FinishDrag` | app/src/main/java/com/c2m/storyviewer/screen/MainActivity.kt:168-182 | the common effect of end and cancel, after which the next drag may start |
| `MainScreen.MainActivity.OnPageSelected` | app/src/main/java/com/c2m/storyviewer/screen/MainActivity.kt:85-88 | sets the current page and changes nothing else |
| `MainScreen.MainActivity.OnPageScrollCanceled` | app/src/main/java/com/c2m/storyviewer/screen/MainActivity.kt:90-92 | the page at `currentPage` (the page whose position is `currentPage`) resumes its story |

## Left out

- Media player construction: the player builder, the media source, the cache data-source factory, and the internals of `prepare` and `release`. These are foreign library calls. They appear only as the events `PlayerPrepare`, `PlayerStop`, `PlayerRelease`, `PlayerPlayWhenReady` and `PlayerSeekTo`.
- Image loading of segments, profile pictures and preloaded images. It is a foreign library. A shown image segment is the event `ShowImage`.
- Video preloading with coroutines and a progressive downloader (`preLoadVideos`) and image preloading (`preLoadImages`). They are concurrent network I/O, and the download percentage is floating point. `PreLoadStories` returns the two lists it would hand to them.
- The progress bar's internals (`startStories`, `skip`, `reverse`, `pause`, `resume`, `abandon`, `setDuration`). That view is not part of this model; its calls are events.
- View visibility toggles, the video loading spinner, the user name text and the overlay alpha animations (`showStoryOverlay`, `hideStoryOverlay`, `onLongClick`). The overlay guards compare floats. The Toasts on vertical swipes are left out too.
- Date formatting of a segment's timestamp. It goes through platform calendar classes.
- `OnSwipeTouchListener`, including the `super.onTouchView` call and gesture detection. It is not part of this model. Taps arrive as `OnClick`, touches as `OnTouchView`.
- `Story.isVideo()`. Its definition is not part of this model, so each `Story` carries the answer as a field.
- `onCreate` and `setUpPager`: the story generator, the pager adapter, the page transformer and listener registration. Only `preLoadStories`, `onPageSelected` and `onPageScrollCanceled` are modelled. `currentFragment()` relies on the adapter's lookup, which is not part of this model, so `OnPageScrollCanceled` receives the current page as a parameter and requires that its position is `currentPage`.
- The pager itself: its own change of `currentItem` once a drag completes, the interpolator and the animation timing. `currentItem`, the page count, the width and the result of `beginFakeDrag()` are parameters. The animation's frame values are assumed to stay within 0 to the width.
- MainScreen.MainActivity.FakeDrag: only one animation is tracked. If a second drag starts before the first one has emitted a non-zero frame, the model forgets the first animation and its later callbacks.
- The `try`/`catch` around the drag ignores exceptions. In the model a drag cannot fail.
- StoryDisplay.StoryDisplayFragment.NewInstance: requires that the saved entry for the page's position names one of its segments, which `newInstance` does not check. The code fails later, at `stories[counter]`, in two ways. A user with no segments fails in `updateStory` when the view is created. A saved entry of at least the number of segments fails in `onResume` after `onStart` has restored it. The model assumes that every page built at a position is given the same segment list, since the progress table is process-wide and outlives the page. The page adapter and the story generator that would guarantee this are not part of this model. The invariant that saved positions are always valid rests on this assumption.
- The fragment lifecycle order imposed by the platform. Each lifecycle method is an independent operation with only its own precondition.
- Integer widths. Kotlin `Long` for times and `Int` for drag values are modelled as unbounded integers. With real clock values and pager widths neither subtraction can overflow. The conversion of the offset to a float is left out too.
- Several page objects sharing one position at the same time, for example an old and a recreated instance. Each page's invariant covers its own entry of the table.
