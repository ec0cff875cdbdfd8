/** components/ManualControl.tsx: the on-screen and keyboard drive pad. A
    press records the direction as pressed, reports it to the parent through
    `onCommand`, and, for the four translations, posts the matching `w/a/s/d`
    code to the manual route at speed 1; a release clears the pressed
    direction. */
module ManualControl {
  import opened Wrappers
  import ManualRoute

  const Forward: string := "forward"
  const Backward: string := "backward"
  const Left: string := "left"
  const Right: string := "right"
  const RotateLeft: string := "rotate_left"
  const RotateRight: string := "rotate_right"

  /** The switch of `handleKeyPress`: the API code of a direction, None
      (`null`) for rotations and anything else. */
  function ApiDirection(direction: string): Option<string> {
    if direction == Forward then Some("w")
    else if direction == Backward then Some("s")
    else if direction == Left then Some("a")
    else if direction == Right then Some("d")
    else None
  }

  /** The body `handleKeyPress` posts for a direction, if any. */
  function PostFor(direction: string): seq<ManualRoute.RequestBody> {
    match ApiDirection(direction)
    case None => []
    case Some(code) => [ManualRoute.Body(Some(code), Some(1))]
  }

  /** The `keydown` switch: the direction a key presses. */
  function KeyDirection(key: string): Option<string> {
    if key == "ArrowUp" || key == "w" || key == "W" then Some(Forward)
    else if key == "ArrowDown" || key == "s" || key == "S" then Some(Backward)
    else if key == "ArrowLeft" || key == "a" || key == "A" then Some(Left)
    else if key == "ArrowRight" || key == "d" || key == "D" then Some(Right)
    else if key == "q" || key == "Q" then Some(RotateLeft)
    else if key == "e" || key == "E" then Some(RotateRight)
    else None
  }

  /** The `keyup` switch: the keys that release. */
  predicate IsReleaseKey(key: string) {
    key in {"ArrowUp", "w", "W", "ArrowDown", "s", "S", "ArrowLeft", "a", "A",
            "ArrowRight", "d", "D", "q", "Q", "e", "E"}
  }

  /** The four translations map to their letters; everything else, the two
      rotations included, maps to nothing. */
  lemma ApiDirectionTable(direction: string)
    ensures ApiDirection(Forward) == Some("w") && ApiDirection(Backward) == Some("s")
    ensures ApiDirection(Left) == Some("a") && ApiDirection(Right) == Some("d")
    ensures ApiDirection(RotateLeft).None? && ApiDirection(RotateRight).None?
    ensures ApiDirection(direction).Some? <==> direction in {Forward, Backward, Left, Right}
  {
  }

  /** Every code the pad can post is one of the four letters at speed 1, and
      the manual route accepts it with status 200. */
  lemma PostedCodesAccepted(direction: string)
    ensures forall b :: b in PostFor(direction) ==>
              && b.direction.value in {"w", "a", "s", "d"} && b.speed == Some(1)
              && ManualRoute.Post(b).accepted && ManualRoute.Post(b).status == 200
  {
    if ApiDirection(direction).Some? {
      ManualRoute.ValidDirectionIff(ApiDirection(direction).value);
    }
  }

  /** The key table: each direction is pressed by exactly its three keys
      (two for the rotations), and no other key presses anything. */
  lemma KeyTable(key: string)
    ensures KeyDirection(key) == Some(Forward) <==> key in {"ArrowUp", "w", "W"}
    ensures KeyDirection(key) == Some(Backward) <==> key in {"ArrowDown", "s", "S"}
    ensures KeyDirection(key) == Some(Left) <==> key in {"ArrowLeft", "a", "A"}
    ensures KeyDirection(key) == Some(Right) <==> key in {"ArrowRight", "d", "D"}
    ensures KeyDirection(key) == Some(RotateLeft) <==> key in {"q", "Q"}
    ensures KeyDirection(key) == Some(RotateRight) <==> key in {"e", "E"}
  {
  }

  /** `keyup` releases for exactly the keys `keydown` handles. */
  lemma ReleaseKeysAreHandledKeys(key: string)
    ensures IsReleaseKey(key) <==> KeyDirection(key).Some?
  {
  }

  /** The component's state: the pressed direction, and, as logs, the
      directions reported through `onCommand` and the bodies posted to the
      manual route, in order. */
  class Pad {
    var isPressed: Option<string>
    var commands: seq<string>
    var posts: seq<ManualRoute.RequestBody>

    /** Every body posted so far is one the manual route accepts. */
    ghost predicate Valid()
      reads this
    {
      forall k :: 0 <= k < |posts| ==> ManualRoute.Post(posts[k]).accepted
    }

    constructor ()
      ensures Valid() && isPressed.None? && commands == [] && posts == []
    {
      isPressed, commands, posts := None, [], [];
    }

    /** `handleKeyPress`; a POST that fails is only logged, so it changes no
        state. */
    method HandleKeyPress(direction: string)
      requires Valid()
      modifies this
      ensures Valid()
      ensures isPressed == Some(direction)
      ensures commands == old(commands) + [direction]
      ensures posts == old(posts) + PostFor(direction)
    {
      PostedCodesAccepted(direction);
      isPressed := Some(direction);
      commands := commands + [direction];
      var apiDirection := ApiDirection(direction);
      if apiDirection.Some? {
        posts := posts + [ManualRoute.Body(Some(apiDirection.value), Some(1))];
      }
    }

    /** `handleKeyRelease`. */
    method HandleKeyRelease()
      modifies this
      ensures isPressed.None? && commands == old(commands) && posts == old(posts)
    {
      isPressed := None;
    }

    /** The `keydown` listener: auto-repeats are ignored, handled keys press
        their direction, other keys do nothing. */
    method HandleKeyDown(key: string, repeat: bool)
      requires Valid()
      modifies this
      ensures Valid()
      ensures repeat || KeyDirection(key).None? ==>
                isPressed == old(isPressed) && commands == old(commands) && posts == old(posts)
      ensures !repeat && KeyDirection(key).Some? ==>
                var d := KeyDirection(key).value;
                isPressed == Some(d) && commands == old(commands) + [d] && posts == old(posts) + PostFor(d)
    {
      if repeat {
        return;
      }
      var direction := KeyDirection(key);
      if direction.Some? {
        HandleKeyPress(direction.value);
      }
    }

    /** The `keyup` listener. */
    method HandleKeyUp(key: string)
      modifies this
      ensures commands == old(commands) && posts == old(posts)
      ensures isPressed == if IsReleaseKey(key) then None else old(isPressed)
    {
      if IsReleaseKey(key) {
        HandleKeyRelease();
      }
    }
  }
}
