/** lib/mockBot.ts: the canned robot replies. The input is lower-cased and
    tested against keywords in a fixed order; the first test that succeeds
    picks the reply. */
module MockBot {
  import opened Strings

  const ScanReply: string := "Scanning surroundings\U{2026} detected: table, chair, apple 2.3 m ahead."
  const AppleReply: string := "Navigating toward the apple using visual detection\U{2026}"
  const ReturnReply: string := "Returning to base. ETA 14s."
  const AvoidReply: string := "Obstacle avoidance mode activated. Adjusting path."
  const DefaultReply: string := "Acknowledged. Executing command."

  /** `mockBotReply`. */
  function MockBotReply(userText: string): string {
    var text := ToLower(userText);
    if Contains(text, "scan") then ScanReply
    else if Contains(text, "apple") then AppleReply
    else if Contains(text, "return") || Contains(text, "base") then ReturnReply
    else if Contains(text, "avoid") || Contains(text, "obstacle") then AvoidReply
    else DefaultReply
  }

  /** A rule: any of its keywords selects its reply. */
  datatype Rule = Rule(keywords: seq<string>, reply: string)

  /** The keyword table in priority order. */
  const Rules: seq<Rule> := [
    Rule(["scan"], ScanReply),
    Rule(["apple"], AppleReply),
    Rule(["return", "base"], ReturnReply),
    Rule(["avoid", "obstacle"], AvoidReply)
  ]

  /** Some keyword of the list occurs in the text. */
  predicate AnyKeyword(text: string, keywords: seq<string>) {
    |keywords| > 0 && (Contains(text, keywords[0]) || AnyKeyword(text, keywords[1..]))
  }

  /** The reference reading of the table: the reply of the first rule with a
      keyword in the text, or the default. */
  function FirstMatch(rules: seq<Rule>, text: string): (r: string)
    ensures r == DefaultReply || exists i :: 0 <= i < |rules| && r == rules[i].reply
  {
    if |rules| == 0 then DefaultReply
    else if AnyKeyword(text, rules[0].keywords) then rules[0].reply
    else
      var r := FirstMatch(rules[1..], text);
      assert r != DefaultReply ==> exists i :: 0 <= i < |rules[1..]| && r == rules[1..][i].reply;
      assert forall i :: 0 <= i < |rules[1..]| ==> rules[1..][i] == rules[i + 1];
      r
  }

  /** The chain of tests is the table read from the top. */
  lemma ReplyIsFirstMatch(userText: string)
    ensures MockBotReply(userText) == FirstMatch(Rules, ToLower(userText))
  {
    var text := ToLower(userText);
    var r0, r1, r2, r3 := Rules[0], Rules[1], Rules[2], Rules[3];
    assert Rules == [r0, r1, r2, r3];
    assert AnyKeyword(text, r0.keywords) <==> Contains(text, "scan") by {
      assert r0.keywords[1..] == [];
    }
    assert AnyKeyword(text, r1.keywords) <==> Contains(text, "apple") by {
      assert r1.keywords[1..] == [];
    }
    assert AnyKeyword(text, r2.keywords) <==> Contains(text, "return") || Contains(text, "base") by {
      assert r2.keywords[1..] == ["base"];
      assert AnyKeyword(text, ["base"]) <==> Contains(text, "base") by {
        assert ["base"][1..] == [];
      }
    }
    assert AnyKeyword(text, r3.keywords) <==> Contains(text, "avoid") || Contains(text, "obstacle") by {
      assert r3.keywords[1..] == ["obstacle"];
      assert AnyKeyword(text, ["obstacle"]) <==> Contains(text, "obstacle") by {
        assert ["obstacle"][1..] == [];
      }
    }
    assert [r3][1..] == [];
    assert [r2, r3][1..] == [r3];
    assert [r1, r2, r3][1..] == [r2, r3];
    assert [r0, r1, r2, r3][1..] == [r1, r2, r3];
    assert FirstMatch([r2, r3], text) == if AnyKeyword(text, r2.keywords) then ReturnReply else FirstMatch([r3], text);
    assert FirstMatch([r1, r2, r3], text) == if AnyKeyword(text, r1.keywords) then AppleReply else FirstMatch([r2, r3], text);
  }

  /** The reply is always one of the five fixed texts. */
  lemma ReplyIsOneOfFive(userText: string)
    ensures MockBotReply(userText) in {ScanReply, AppleReply, ReturnReply, AvoidReply, DefaultReply}
  {
  }

  /** Case does not matter: the reply depends only on the lower-cased text. */
  lemma ReplyIgnoresCase(userText: string)
    ensures MockBotReply(userText) == MockBotReply(ToLower(userText))
  {
    ToLowerIdempotent(userText);
  }

  /** "scan" wins over every other keyword; "apple" wins over the rest. */
  lemma ScanFirstThenApple(userText: string)
    ensures Contains(ToLower(userText), "scan") ==> MockBotReply(userText) == ScanReply
    ensures !Contains(ToLower(userText), "scan") && Contains(ToLower(userText), "apple") ==>
              MockBotReply(userText) == AppleReply
  {
  }

  /** Mentioning a scan and the apple gets the scanning reply. */
  lemma ScanAndAppleScans(before: string, middle: string, after: string)
    ensures MockBotReply(before + "scan" + middle + "apple" + after) == ScanReply
  {
    var u := before + "scan" + middle + "apple" + after;
    var t := ToLower(u);
    assert t[|before|..|before| + 4] == "scan";
    ContainsAt(t, "scan", |before|);
  }

  /** Text with none of the six keywords gets the default reply. */
  lemma NoKeywordDefault(userText: string)
    requires forall w :: w in ["scan", "apple", "return", "base", "avoid", "obstacle"] ==> !Contains(ToLower(userText), w)
    ensures MockBotReply(userText) == DefaultReply
  {
  }
}
