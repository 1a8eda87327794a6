/** The screen that hosts the pages: it moves the pager one page on or back
    with a programmatic drag, tracks the selected page, and splits all story
    urls into videos and images for preloading. */
module MainScreen {
  import opened StoryData
  import opened StoryDisplay

  /** The message shown when "next" is asked for on the last page. */
  const AllStoriesDisplayed: string := "All stories displayed."

  /** What the screen does to the pager, in order. */
  datatype PagerEffect =
    | DragStarted(forward: bool, width: int)   // a fake drag began, animated from 0 to `width`
    | FakeDragBy(offset: int)
    | EndFakeDrag
    | Toast(message: string)

  /** The drag animation whose update listener is attached, if any. */
  datatype Animator = Idle | Animating(forward: bool, width: int)

  // ---------------------------------------------------------------------
  // Drag offsets

  /** Dragging forward moves the pager content to the left. */
  function Direction(forward: bool): int
  {
    if forward then -1 else 1
  }

  /** The offset one animation frame drags the pager by. */
  function DragOffset(prev: int, value: int, forward: bool): int
  {
    (value - prev) * Direction(forward)
  }

  /** The offsets one animation emits for the frame values `values`, the
      previous value starting at `prev`. */
  function Offsets(prev: int, values: seq<int>, forward: bool): (r: seq<int>)
    ensures |r| == |values|
    decreases |values|
  {
    if values == [] then []
    else [DragOffset(prev, values[0], forward)] + Offsets(values[0], values[1..], forward)
  }

  function Sum(s: seq<int>): int
  {
    if s == [] then 0 else s[0] + Sum(s[1..])
  }

  /** The offsets telescope: together they drag the pager by the distance
      from the first previous value to the last frame value, signed by the
      direction. From 0 to the pager's width that is exactly one page. */
  lemma {:induction false} OffsetsTelescope(prev: int, values: seq<int>, forward: bool)
    requires values != []
    ensures Sum(Offsets(prev, values, forward)) == Direction(forward) * (values[|values| - 1] - prev)
    decreases |values|
  {
    var rest := Offsets(values[0], values[1..], forward);
    assert Offsets(prev, values, forward) == [DragOffset(prev, values[0], forward)] + rest;
    assert Sum(Offsets(prev, values, forward)) == DragOffset(prev, values[0], forward) + Sum(rest);
    if |values| == 1 {
      assert rest == [];
    } else {
      OffsetsTelescope(values[0], values[1..], forward);
      assert values[1..][|values[1..]| - 1] == values[|values| - 1];
    }
    if forward {
      assert DragOffset(prev, values[0], forward) == prev - values[0];
    } else {
      assert DragOffset(prev, values[0], forward) == values[0] - prev;
    }
  }

  // ---------------------------------------------------------------------
  // Preloading: every story url is a video or an image

  /** All stories of all users, user by user, each in its own order. */
  function Flatten(users: seq<StoryUser>): seq<Story>
  {
    if users == [] then [] else Flatten(users[..|users| - 1]) + users[|users| - 1].stories
  }

  /** The urls of the stories whose kind is `video`, in order. */
  function Urls(stories: seq<Story>, video: bool): seq<string>
  {
    if stories == [] then []
    else
      var last := stories[|stories| - 1];
      Urls(stories[..|stories| - 1], video) + (if last.isVideo == video then [last.url] else [])
  }

  /** The urls of all the stories, in order. */
  function AllUrls(stories: seq<Story>): (r: seq<string>)
    ensures |r| == |stories|
  {
    if stories == [] then [] else AllUrls(stories[..|stories| - 1]) + [stories[|stories| - 1].url]
  }

  lemma UrlsSnoc(stories: seq<Story>, s: Story, video: bool)
    ensures Urls(stories + [s], video) == Urls(stories, video) + (if s.isVideo == video then [s.url] else [])
  {
    assert (stories + [s])[..|stories|] == stories;
  }

  /** The split keeps the order: the urls of earlier stories come first. */
  lemma {:induction false} UrlsAppend(a: seq<Story>, b: seq<Story>, video: bool)
    ensures Urls(a + b, video) == Urls(a, video) + Urls(b, video)
    decreases |b|
  {
    if b == [] {
      assert a + b == a;
    } else {
      var init, last := b[..|b| - 1], b[|b| - 1];
      assert b == init + [last];
      assert a + b == (a + init) + [last];
      UrlsSnoc(a + init, last, video);
      UrlsSnoc(init, last, video);
      UrlsAppend(a, init, video);
    }
  }

  /** The split is exact: the video urls and the image urls together are
      all the urls, each as often as it occurs. */
  lemma {:induction false} PartitionExact(stories: seq<Story>)
    ensures multiset(Urls(stories, true)) + multiset(Urls(stories, false)) == multiset(AllUrls(stories))
    ensures |Urls(stories, true)| + |Urls(stories, false)| == |stories|
    decreases |stories|
  {
    if stories != [] {
      PartitionExact(stories[..|stories| - 1]);
      var last := stories[|stories| - 1];
      assert multiset(AllUrls(stories)) == multiset(AllUrls(stories[..|stories| - 1])) + multiset{last.url};
      assert |multiset(Urls(stories, true))| + |multiset(Urls(stories, false))| == |multiset(AllUrls(stories))|;
    }
  }

  /** A url is in the list of kind `video` exactly when some story of that
      kind has it. */
  lemma {:induction false} UrlsMembers(stories: seq<Story>, video: bool, url: string)
    ensures url in Urls(stories, video) <==>
            exists i :: 0 <= i < |stories| && stories[i].isVideo == video && stories[i].url == url
    decreases |stories|
  {
    if stories != [] {
      var init, last := stories[..|stories| - 1], stories[|stories| - 1];
      UrlsMembers(init, video, url);
      if url in Urls(stories, video) {
        if url in Urls(init, video) {
          var i :| 0 <= i < |init| && init[i].isVideo == video && init[i].url == url;
          assert stories[i] == init[i];
        } else {
          assert stories[|stories| - 1].isVideo == video && stories[|stories| - 1].url == url;
        }
      } else {
        forall i | 0 <= i < |stories| && stories[i].isVideo == video
          ensures stories[i].url != url
        {
          if i < |init| {
            assert stories[i] == init[i];
          }
        }
      }
    }
  }

  /** Lists every story url of every user, in user-then-story order, as a
      video or as an image; the two lists are handed to the preloaders. */
  method PreLoadStories(users: seq<StoryUser>) returns (videoList: seq<string>, imageList: seq<string>)
    ensures videoList == Urls(Flatten(users), true)
    ensures imageList == Urls(Flatten(users), false)
  {
    videoList, imageList := [], [];
    for i := 0 to |users|
      invariant videoList == Urls(Flatten(users[..i]), true)
      invariant imageList == Urls(Flatten(users[..i]), false)
    {
      ghost var done := Flatten(users[..i]);
      var stories := users[i].stories;
      assert done + stories[..0] == done;
      for j := 0 to |stories|
        invariant videoList == Urls(done + stories[..j], true)
        invariant imageList == Urls(done + stories[..j], false)
      {
        assert done + stories[..j + 1] == (done + stories[..j]) + [stories[j]];
        UrlsSnoc(done + stories[..j], stories[j], true);
        UrlsSnoc(done + stories[..j], stories[j], false);
        if stories[j].isVideo {
          videoList := videoList + [stories[j].url];
        } else {
          imageList := imageList + [stories[j].url];
        }
      }
      assert stories[..|stories|] == stories;
      assert users[..i + 1][..i] == users[..i];
    }
    assert users[..|users|] == users;
  }

  // ---------------------------------------------------------------------
  // The screen itself

  class MainActivity {
    var currentPage: int
    var prevDragPosition: int
    /** Whether the pager is in a fake drag (it only enters and leaves one
        at this screen's request). */
    var fakeDragging: bool
    var animator: Animator
    /** The total offset the current drag has moved the pager by. */
    ghost var dragged: int
    var log: seq<PagerEffect>

    /** Outside a drag nothing is left over; during one the last frame value
        is within the animation's range and the pager has been moved by
        exactly that value, in the drag's direction. */
    ghost predicate Valid()
      reads this
    {
      (animator.Idle? ==> prevDragPosition == 0 && !fakeDragging) &&
      (animator.Animating? ==>
        fakeDragging && 0 <= prevDragPosition <= animator.width &&
        dragged == Direction(animator.forward) * prevDragPosition)
    }

    constructor ()
      ensures Valid()
      ensures currentPage == 0 && prevDragPosition == 0 && animator == Idle && log == []
    {
      currentPage := 0;
      prevDragPosition := 0;
      fakeDragging := false;
      animator := Idle;
      dragged := 0;
      log := [];
    }

    /** Goes one page back, if there is a page before `currentItem`. */
    method BackPageView(currentItem: int, pagerAccepts: bool, width: int)
      requires Valid() && width >= 0
      modifies this`fakeDragging, this`animator, this`dragged, this`log
      ensures Valid()
      ensures currentItem > 0 && old(prevDragPosition) == 0 && pagerAccepts ==>
        animator == Animating(false, width) && dragged == 0 && log == old(log) + [DragStarted(false, width)]
      ensures !(currentItem > 0 && old(prevDragPosition) == 0 && pagerAccepts) ==>
        animator == old(animator) && fakeDragging == old(fakeDragging) && dragged == old(dragged) && log == old(log)
    {
      if currentItem > 0 {
        FakeDrag(false, pagerAccepts, width);
      }
    }

    /** Goes one page on if there is a page after `currentItem` among the
        `count` pages (0 when the pager has no adapter); otherwise only tells
        the user that every story has been shown. */
    method NextPageView(currentItem: int, count: int, pagerAccepts: bool, width: int)
      requires Valid() && width >= 0
      modifies this`fakeDragging, this`animator, this`dragged, this`log
      ensures Valid()
      ensures currentItem + 1 < count && old(prevDragPosition) == 0 && pagerAccepts ==>
        animator == Animating(true, width) && dragged == 0 && log == old(log) + [DragStarted(true, width)]
      ensures currentItem + 1 < count && !(old(prevDragPosition) == 0 && pagerAccepts) ==>
        animator == old(animator) && fakeDragging == old(fakeDragging) && dragged == old(dragged) && log == old(log)
      ensures currentItem + 1 >= count ==>
        animator == old(animator) && fakeDragging == old(fakeDragging) && dragged == old(dragged) &&
        log == old(log) + [Toast(AllStoriesDisplayed)]
    {
      if currentItem + 1 < count {
        FakeDrag(true, pagerAccepts, width);
      } else {
        log := log + [Toast(AllStoriesDisplayed)];
      }
    }

    /** Starts a drag of one page width, unless one is still moving the
        pager; `pagerAccepts` is the pager's answer to beginning a fake drag,
        which is asked only when no drag is moving the pager. */
    method FakeDrag(forward: bool, pagerAccepts: bool, width: int)
      requires Valid() && width >= 0
      modifies this`fakeDragging, this`animator, this`dragged, this`log
      ensures Valid()
      ensures old(prevDragPosition) == 0 && pagerAccepts ==>
        animator == Animating(forward, width) && dragged == 0 && log == old(log) + [DragStarted(forward, width)]
      ensures !(old(prevDragPosition) == 0 && pagerAccepts) ==>
        animator == old(animator) && fakeDragging == old(fakeDragging) && dragged == old(dragged) && log == old(log)
    {
      if prevDragPosition == 0 && pagerAccepts {
        fakeDragging := true;
        animator := Animating(forward, width);
        dragged := 0;
        log := log + [DragStarted(forward, width)];
      }
    }

    /** One animation frame with value `value`: the pager is dragged by the
        change since the previous frame. */
    method OnAnimationUpdate(value: int)
      requires Valid()
      requires animator.Animating? ==> 0 <= value <= animator.width
      modifies this`prevDragPosition, this`dragged, this`log
      ensures Valid()
      ensures animator.Animating? ==>
        prevDragPosition == value &&
        log == old(log) + [FakeDragBy(DragOffset(old(prevDragPosition), value, animator.forward))]
      ensures animator.Idle? ==> prevDragPosition == old(prevDragPosition) && log == old(log)
    {
      if animator.Idle? {
        return;
      }
      if !fakeDragging {
        return;
      }
      var offset := (value - prevDragPosition) * if animator.forward then -1 else 1;
      prevDragPosition := value;
      dragged := dragged + offset;
      log := log + [FakeDragBy(offset)];
    }

    method OnAnimationEnd()
      requires Valid()
      modifies this`fakeDragging, this`animator, this`prevDragPosition, this`log
      ensures Valid()
      ensures animator == Idle && prevDragPosition == 0
      ensures log == old(log) + (if old(fakeDragging) then [EndFakeDrag] else [])
    {
      FinishDrag();
    }

    method OnAnimationCancel()
      requires Valid()
      modifies this`fakeDragging, this`animator, this`prevDragPosition, this`log
      ensures Valid()
      ensures animator == Idle && prevDragPosition == 0
      ensures log == old(log) + (if old(fakeDragging) then [EndFakeDrag] else [])
    {
      FinishDrag();
    }

    /** What both the end and the cancel of the animation do: detach the
        update listener, end the pager's fake drag and forget the last
        frame value, so that the next drag may start. */
    method FinishDrag()
      requires Valid()
      modifies this`fakeDragging, this`animator, this`prevDragPosition, this`log
      ensures Valid()
      ensures animator == Idle && prevDragPosition == 0
      ensures log == old(log) + (if old(fakeDragging) then [EndFakeDrag] else [])
    {
      animator := Idle;
      if fakeDragging {
        fakeDragging := false;
        log := log + [EndFakeDrag];
      }
      prevDragPosition := 0;
    }

    method OnPageSelected(position: int)
      modifies this`currentPage
      ensures currentPage == position
    {
      currentPage := position;
    }

    /** A page scroll was abandoned: the page at `currentPage` resumes.
        `current` is the page the adapter finds at `currentPage`. */
    method OnPageScrollCanceled(current: StoryDisplayFragment)
      requires current.position == currentPage
      modifies current`log
      ensures current.log == old(current.log) + ResumeEffects(current.onResumeCalled, current.hasPlayer)
    {
      current.ResumeCurrentStory();
    }
  }
}
