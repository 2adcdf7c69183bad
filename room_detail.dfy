/** The image carousel of the room detail page: an index into the room's
    image list that "next" and "previous" move around a cycle. */
module RoomDetail {
  import opened JsText

  /** The part of a loaded room the carousel reads; the image list may be
      missing. */
  datatype RoomDetails = RoomDetails(images: Option<seq<string>>)

  /** JavaScript's `%`: the remainder takes the sign of the dividend. */
  function JsRem(a: int, n: int): (r: int)
    requires n > 0
    ensures a >= 0 ==> r == a % n
    ensures -n < r < n
  {
    if a >= 0 then a % n else -((-a) % n)
  }

  /** The number of images, 0 when there is no room or no list. */
  function ImageCount(room: Option<RoomDetails>): nat
  {
    if room.Some? && room.value.images.Some? then |room.value.images.value| else 0
  }

  /** The guard of both handlers: a room, with an image list, that is not
      empty. */
  predicate CanCycle(room: Option<RoomDetails>)
  {
    room.Some? && room.value.images.Some? && |room.value.images.value| > 0
  }

  /** The index after "next": one further along, back to 0 after the last. */
  function NextIndex(i: int, n: int): (r: int)
    requires n > 0
    ensures 0 <= i ==> 0 <= r < n
    ensures 0 <= i < n - 1 ==> r == i + 1
    ensures i == n - 1 ==> r == 0
  {
    JsRem(i + 1, n)
  }

  /** The index after "previous": one back, to the last from 0. */
  function PrevIndex(i: int, n: int): (r: int)
    requires n > 0
    ensures 0 <= i ==> 0 <= r < n
    ensures 0 < i <= n ==> r == i - 1
    ensures i == 0 ==> r == n - 1
  {
    JsRem(i - 1 + n, n)
  }

  /** "Previous" undoes "next" and "next" undoes "previous" on every index
      inside the list. */
  lemma PrevNextInverse(i: int, n: int)
    requires 0 <= i < n
    ensures PrevIndex(NextIndex(i, n), n) == i
    ensures NextIndex(PrevIndex(i, n), n) == i
  {
  }

  /** The index after `k` presses of "next". */
  function Advance(i: int, n: int, k: nat): int
    requires n > 0
  {
    if k == 0 then i else NextIndex(Advance(i, n, k - 1), n)
  }

  /** Before the end of the list each press moves one place forward. */
  lemma {:induction false} AdvanceForward(i: int, n: int, k: nat)
    requires 0 <= i && i + k < n
    ensures Advance(i, n, k) == i + k
  {
    if k > 0 {
      AdvanceForward(i, n, k - 1);
    }
  }

  /** `a + b` presses are `a` presses followed by `b` presses. */
  lemma {:induction false} AdvanceSplits(i: int, n: int, a: nat, b: nat)
    requires n > 0
    ensures Advance(i, n, a + b) == Advance(Advance(i, n, a), n, b)
  {
    if b > 0 {
      AdvanceSplits(i, n, a, b - 1);
    }
  }

  /** As many presses of "next" as there are images return to the start:
      the index runs forward to the last image, wraps to 0, and runs forward
      again. */
  lemma {:induction false} FullCycle(i: int, n: int)
    requires 0 <= i < n
    ensures Advance(i, n, n) == i
  {
    AdvanceForward(i, n, n - i - 1);
    assert Advance(i, n, n - i) == 0;
    AdvanceForward(0, n, i);
    AdvanceSplits(i, n, n - i, i);
  }

  /** The arrows are drawn only when there are at least two images. */
  predicate ShowsArrows(room: Option<RoomDetails>)
    ensures ShowsArrows(room) ==> CanCycle(room) && ImageCount(room) >= 2
  {
    room.Some? && room.value.images.Some? && |room.value.images.value| > 1
  }

  /** Wherever the arrows are drawn, pressing them moves the index. */
  lemma ArrowsMove(room: Option<RoomDetails>, i: int)
    requires ShowsArrows(room) && 0 <= i < ImageCount(room)
    ensures CanCycle(room)
    ensures NextIndex(i, ImageCount(room)) != i && PrevIndex(i, ImageCount(room)) != i
  {
  }

  class RoomDetailScreen {
    var room: Option<RoomDetails>
    var currentImageIndex: int

    /** The index never goes below 0. */
    predicate Valid()
      reads this
    {
      currentImageIndex >= 0
    }

    constructor ()
      ensures room == None && currentImageIndex == 0 && Valid()
    {
      room, currentImageIndex := None, 0;
    }

    /** A room arrives from the server; the index is kept as it was. */
    method ShowRoom(r: RoomDetails)
      modifies this`room
      ensures room == Some(r)
    {
      room := Some(r);
    }

    method GoToNextImage()
      requires Valid()
      modifies this`currentImageIndex
      ensures Valid()
      ensures CanCycle(room) ==> currentImageIndex == NextIndex(old(currentImageIndex), ImageCount(room))
      ensures CanCycle(room) ==> currentImageIndex < ImageCount(room)
      ensures !CanCycle(room) ==> currentImageIndex == old(currentImageIndex)
    {
      if room.Some? && room.value.images.Some? && |room.value.images.value| > 0 {
        currentImageIndex := NextIndex(currentImageIndex, |room.value.images.value|);
      }
    }

    method GoToPrevImage()
      requires Valid()
      modifies this`currentImageIndex
      ensures Valid()
      ensures CanCycle(room) ==> currentImageIndex == PrevIndex(old(currentImageIndex), ImageCount(room))
      ensures CanCycle(room) ==> currentImageIndex < ImageCount(room)
      ensures !CanCycle(room) ==> currentImageIndex == old(currentImageIndex)
    {
      if room.Some? && room.value.images.Some? && |room.value.images.value| > 0 {
        currentImageIndex := PrevIndex(currentImageIndex, |room.value.images.value|);
      }
    }
  }
}
