/** app/api/manual/route.ts: the `POST /api/manual` handler. It validates the
    requested drive direction against the letters `w`, `a`, `s`, `d` and
    answers with a JSON body; the tracking backend is not connected, so a
    valid command is only acknowledged. */
module ManualRoute {
  import opened Wrappers
  import opened Strings

  /** The request body after `req.json()`: `Unparsable` when parsing (or
      destructuring the result) throws; otherwise the `direction` and
      `speed` fields, None when absent or `null`. */
  datatype RequestBody = Unparsable | Body(direction: Option<string>, speed: Option<int>)

  /** The HTTP status and the fields of the JSON response body; `note` is
      None when the body has no `note` field. */
  datatype Response = Response(status: int, accepted: bool, message: string, note: Option<string>)

  const Letters: string := "wasd"
  const RejectText: string := "direction must be one of w,a,s,d"
  const ReceivedPrefix: string := "Command received: "
  const SpeedInfix: string := " at speed "
  const NotConnectedNote: string := "Tracking backend not connected - command logged only"
  const ServerErrorText: string := "Internal server error"

  /** `direction && "wasd".includes(direction)`: a non-empty string occurring
      in "wasd". */
  predicate IsValidDirection(direction: Option<string>) {
    direction.Some? && direction.value != "" && Contains(Letters, direction.value)
  }

  /** `speed ?? 1`. */
  function SpeedOrDefault(speed: Option<int>): int {
    speed.GetOr(1)
  }

  /** The acknowledgement text of an accepted command. */
  function ReceivedMessage(direction: string, speed: Option<int>): string {
    ReceivedPrefix + ToUpper(direction) + SpeedInfix + IntToString(SpeedOrDefault(speed))
  }

  /** `POST`. */
  function Post(body: RequestBody): Response {
    match body
    case Unparsable => Response(500, false, ServerErrorText, None)
    case Body(direction, speed) =>
      if !IsValidDirection(direction) then Response(400, false, RejectText, None)
      else Response(200, true, ReceivedMessage(direction.value, speed), Some(NotConnectedNote))
  }

  /** The ten non-empty substrings of "wasd". */
  const Substrings: set<string> := {"w", "a", "s", "d", "wa", "as", "sd", "was", "asd", "wasd"}

  /** The directions validation lets through are exactly the ten non-empty
      substrings of "wasd": multi-letter strings such as "wa" and "asd" pass,
      the empty string does not. */
  lemma ValidDirectionIff(d: string)
    ensures IsValidDirection(Some(d)) <==> d in Substrings
  {
    if IsValidDirection(Some(d)) {
      ContainsIff(Letters, d);
      var i :| OccursAt(Letters, d, i);
      OccurrenceIsSubstring(d, i);
    }
    if d in Substrings {
      SubstringOccurs(d);
    }
  }

  lemma OccurrenceIsSubstring(d: string, i: int)
    requires d != "" && OccursAt(Letters, d, i)
    ensures d in Substrings
  {
    assert d == Letters[i..i + |d|];
    assert Letters == ['w', 'a', 's', 'd'];
    var j := i + |d|;
    assert 0 <= i < j <= 4;
    if i == 0 {
      assert j == 1 || j == 2 || j == 3 || j == 4;
      assert Letters[0..1] == "w" && Letters[0..2] == "wa" && Letters[0..3] == "was" && Letters[0..4] == "wasd";
    } else if i == 1 {
      assert j == 2 || j == 3 || j == 4;
      assert Letters[1..2] == "a" && Letters[1..3] == "as" && Letters[1..4] == "asd";
    } else if i == 2 {
      assert j == 3 || j == 4;
      assert Letters[2..3] == "s" && Letters[2..4] == "sd";
    } else {
      assert Letters[3..4] == "d";
    }
  }

  lemma SubstringOccurs(d: string)
    requires d in Substrings
    ensures d != "" && Contains(Letters, d)
  {
    assert Letters == ['w', 'a', 's', 'd'];
    if d == "w" { SliceOccurs(d, 0); }
    else if d == "a" { SliceOccurs(d, 1); }
    else if d == "s" { SliceOccurs(d, 2); }
    else if d == "d" { SliceOccurs(d, 3); }
    else if d == "wa" { SliceOccurs(d, 0); }
    else if d == "as" { SliceOccurs(d, 1); }
    else if d == "sd" { SliceOccurs(d, 2); }
    else if d == "was" { SliceOccurs(d, 0); }
    else if d == "asd" { SliceOccurs(d, 1); }
    else { SliceOccurs(d, 0); }
  }

  /** A non-empty slice of "wasd" occurs in it. */
  lemma SliceOccurs(d: string, i: nat)
    requires d != "" && i + |d| <= |Letters| && Letters[i..i + |d|] == d
    ensures Contains(Letters, d)
  {
    ContainsAt(Letters, d, i);
  }

  /** A parsed request is accepted exactly when its direction is valid, and
      an accepted request always gets status 200. */
  lemma PostAcceptedIff(body: RequestBody)
    ensures Post(body).accepted <==> body.Body? && IsValidDirection(body.direction)
    ensures Post(body).accepted <==> Post(body).status == 200
  {
  }

  /** A missing, empty or invalid direction is rejected with status 400 and
      the fixed message, and no note. */
  lemma PostRejectsInvalid(direction: Option<string>, speed: Option<int>)
    requires !IsValidDirection(direction)
    ensures Post(Body(direction, speed)) == Response(400, false, RejectText, None)
  {
  }

  /** A valid direction is acknowledged with its upper-cased letters and the
      speed, 1 when absent, plus the fixed note. */
  lemma PostAcknowledgesValid(d: string, speed: Option<int>)
    requires IsValidDirection(Some(d))
    ensures var r := Post(Body(Some(d), speed));
            && r.status == 200 && r.accepted
            && r.message == "Command received: " + ToUpper(d) + " at speed " + IntToString(speed.GetOr(1))
            && r.note == Some("Tracking backend not connected - command logged only")
    ensures speed.None? ==> Post(Body(Some(d), speed)).message == "Command received: " + ToUpper(d) + " at speed 1"
  {
    assert IntToString(1) == "1";
  }

  /** A body that cannot be read is answered with status 500. */
  lemma PostServerError()
    ensures Post(Unparsable) == Response(500, false, "Internal server error", None)
  {
  }
}
