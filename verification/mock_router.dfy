/** The offline mock of the model API: a prompt is lower-cased and routed to one of six
    canned responses by the first keyword group any of whose words occurs in it. */
module MockRouter {
  import opened Strings

  /** The six entries of the canned-response table, by key. */
  datatype MockResponse = Recipe | Emotion | Review | Code | Game | Default

  /** The keyword groups, in the order they are tried. */
  const KeywordGroups: seq<(MockResponse, seq<string>)> := [
    (Recipe, ["recipe", "ingredient", "cook", "food"]),
    (Emotion, ["emotion", "feeling", "mood", "face", "expression"]),
    (Review, ["review", "sentiment", "feedback", "opinion"]),
    (Code, ["code", "function", "program", "script"]),
    (Game, ["game", "score", "click", "play"])]

  /** Some keyword of the list occurs in `text`, as a substring. */
  predicate Mentions(text: string, keywords: seq<string>) {
    exists k :: 0 <= k < |keywords| && Contains(text, keywords[k])
  }

  /** `getMockResponse(prompt)`: the chain of `includes` tests on the lower-cased prompt. */
  function GetMockResponse(prompt: string): MockResponse {
    var p := ToLower(prompt);
    if Contains(p, "recipe") || Contains(p, "ingredient") || Contains(p, "cook") || Contains(p, "food") then Recipe
    else if Contains(p, "emotion") || Contains(p, "feeling") || Contains(p, "mood") || Contains(p, "face")
            || Contains(p, "expression") then Emotion
    else if Contains(p, "review") || Contains(p, "sentiment") || Contains(p, "feedback") || Contains(p, "opinion") then Review
    else if Contains(p, "code") || Contains(p, "function") || Contains(p, "program") || Contains(p, "script") then Code
    else if Contains(p, "game") || Contains(p, "score") || Contains(p, "click") || Contains(p, "play") then Game
    else Default
  }

  /** The reference routing: the response of the first group mentioned, else the default. */
  function FirstMatch(text: string, groups: seq<(MockResponse, seq<string>)>): MockResponse {
    if groups == [] then Default
    else if Mentions(text, groups[0].1) then groups[0].0
    else FirstMatch(text, groups[1..])
  }

  /** The position of a response's group in the routing order; the default comes last. */
  function Rank(r: MockResponse): nat {
    match r
    case Recipe => 0
    case Emotion => 1
    case Review => 2
    case Code => 3
    case Game => 4
    case Default => 5
  }

  /** Unrolls `Mentions` for a four-word group. */
  lemma MentionsFour(text: string, a: string, b: string, c: string, d: string)
    ensures Mentions(text, [a, b, c, d]) <==> Contains(text, a) || Contains(text, b) || Contains(text, c) || Contains(text, d)
  {
    var ks := [a, b, c, d];
    if Contains(text, a) { assert Contains(text, ks[0]); }
    if Contains(text, b) { assert Contains(text, ks[1]); }
    if Contains(text, c) { assert Contains(text, ks[2]); }
    if Contains(text, d) { assert Contains(text, ks[3]); }
  }

  /** Unrolls `Mentions` for a five-word group. */
  lemma MentionsFive(text: string, a: string, b: string, c: string, d: string, e: string)
    ensures Mentions(text, [a, b, c, d, e]) <==>
            Contains(text, a) || Contains(text, b) || Contains(text, c) || Contains(text, d) || Contains(text, e)
  {
    var ks := [a, b, c, d, e];
    if Contains(text, a) { assert Contains(text, ks[0]); }
    if Contains(text, b) { assert Contains(text, ks[1]); }
    if Contains(text, c) { assert Contains(text, ks[2]); }
    if Contains(text, d) { assert Contains(text, ks[3]); }
    if Contains(text, e) { assert Contains(text, ks[4]); }
  }

  /** Each group test of the chain is "the group is mentioned". */
  lemma GroupTests(p: string)
    ensures Mentions(p, KeywordGroups[0].1) <==>
            Contains(p, "recipe") || Contains(p, "ingredient") || Contains(p, "cook") || Contains(p, "food")
    ensures Mentions(p, KeywordGroups[1].1) <==>
            Contains(p, "emotion") || Contains(p, "feeling") || Contains(p, "mood") || Contains(p, "face")
            || Contains(p, "expression")
    ensures Mentions(p, KeywordGroups[2].1) <==>
            Contains(p, "review") || Contains(p, "sentiment") || Contains(p, "feedback") || Contains(p, "opinion")
    ensures Mentions(p, KeywordGroups[3].1) <==>
            Contains(p, "code") || Contains(p, "function") || Contains(p, "program") || Contains(p, "script")
    ensures Mentions(p, KeywordGroups[4].1) <==>
            Contains(p, "game") || Contains(p, "score") || Contains(p, "click") || Contains(p, "play")
  {
    MentionsFour(p, "recipe", "ingredient", "cook", "food");
    MentionsFive(p, "emotion", "feeling", "mood", "face", "expression");
    MentionsFour(p, "review", "sentiment", "feedback", "opinion");
    MentionsFour(p, "code", "function", "program", "script");
    MentionsFour(p, "game", "score", "click", "play");
  }

  /** The chain of tests is the first-match routing over the keyword groups. */
  lemma RoutingIsFirstMatch(prompt: string)
    ensures GetMockResponse(prompt) == FirstMatch(ToLower(prompt), KeywordGroups)
  {
    var p := ToLower(prompt);
    GroupTests(p);
    var g := KeywordGroups;
    var g1, g2, g3, g4 := g[1..], g[2..], g[3..], g[4..];
    assert g1[0] == g[1] && g1[1..] == g2 && g2[0] == g[2] && g2[1..] == g3;
    assert g3[0] == g[3] && g3[1..] == g4 && g4[0] == g[4] && g4[1..] == [];
    assert FirstMatch(p, g4) == if Mentions(p, g[4].1) then Game else Default;
    assert FirstMatch(p, g3) == if Mentions(p, g[3].1) then Code else FirstMatch(p, g4);
    assert FirstMatch(p, g2) == if Mentions(p, g[2].1) then Review else FirstMatch(p, g3);
    assert FirstMatch(p, g1) == if Mentions(p, g[1].1) then Emotion else FirstMatch(p, g2);
  }

  /** Routing ignores case: a prompt and its lower-cased form get the same response. */
  lemma CaseInsensitive(prompt: string)
    ensures GetMockResponse(prompt) == GetMockResponse(ToLower(prompt))
  {
    ToLowerIdempotent(prompt);
  }

  /** The first mentioned group wins: a prompt that mentions group `i` is answered from
      group `i` or an earlier one, and never with the default. */
  lemma {:induction false} EarliestGroupWins(text: string, groups: seq<(MockResponse, seq<string>)>, i: nat)
    requires i < |groups| && Mentions(text, groups[i].1)
    ensures exists j :: 0 <= j <= i && FirstMatch(text, groups) == groups[j].0 && Mentions(text, groups[j].1)
  {
    if !Mentions(text, groups[0].1) {
      assert i > 0;
      assert groups[1..][i - 1] == groups[i];
      EarliestGroupWins(text, groups[1..], i - 1);
      var j :| 0 <= j <= i - 1 && FirstMatch(text, groups[1..]) == groups[1..][j].0 && Mentions(text, groups[1..][j].1);
      assert groups[1..][j] == groups[j + 1];
    }
  }

  /** Priority among the groups: recipe, then emotion, review, code, game, default. */
  lemma Priority(prompt: string, i: nat)
    requires i < |KeywordGroups| && Mentions(ToLower(prompt), KeywordGroups[i].1)
    ensures Rank(GetMockResponse(prompt)) <= i
    ensures GetMockResponse(prompt) != Default
  {
    RoutingIsFirstMatch(prompt);
    EarliestGroupWins(ToLower(prompt), KeywordGroups, i);
    var j :| 0 <= j <= i && FirstMatch(ToLower(prompt), KeywordGroups) == KeywordGroups[j].0;
    assert Rank(KeywordGroups[j].0) == j;
  }

  /** The default answer comes exactly when no keyword of any group occurs. */
  lemma DefaultIffNoKeyword(prompt: string)
    ensures GetMockResponse(prompt) == Default <==>
            forall i :: 0 <= i < |KeywordGroups| ==> !Mentions(ToLower(prompt), KeywordGroups[i].1)
  {
    if GetMockResponse(prompt) == Default {
      forall i | 0 <= i < |KeywordGroups| ensures !Mentions(ToLower(prompt), KeywordGroups[i].1) {
        if Mentions(ToLower(prompt), KeywordGroups[i].1) {
          Priority(prompt, i);
        }
      }
    } else {
      RoutingIsFirstMatch(prompt);
      GroupTests(ToLower(prompt));
      var p := ToLower(prompt);
      if Mentions(p, KeywordGroups[0].1) {
      } else if Mentions(p, KeywordGroups[1].1) {
      } else if Mentions(p, KeywordGroups[2].1) {
      } else if Mentions(p, KeywordGroups[3].1) {
      } else {
        assert Mentions(p, KeywordGroups[4].1);
      }
    }
  }

  /** Matching is by substring, not by word: "cookie" is a recipe question. */
  lemma CookieIsRecipe()
    ensures GetMockResponse("cookie") == Recipe
  {
    assert ToLower("cookie") == "cookie";
    assert Contains("cookie", "cook");
  }

  /** "interface" is an emotion question: it contains "face". */
  lemma InterfaceIsEmotion()
    ensures GetMockResponse("interface") == Emotion
  {
    var p := "interface";
    assert ToLower(p) == p;
    assert !Contains(p, "recipe") && !Contains(p, "ingredient") && !Contains(p, "cook") && !Contains(p, "food");
    assert Contains(p, "face");
  }

  /** "display" is a game question: it contains "play". */
  lemma DisplayIsGame()
    ensures GetMockResponse("display") == Game
  {
    var p := "display";
    assert ToLower(p) == p;
    DisplayMissesFirstGroups();
    DisplayMissesMiddleGroups();
    DisplayMentionsPlay();
  }

  /** Of the game keywords, "display" mentions only "play". */
  lemma DisplayMentionsPlay()
    ensures var p := "display";
            !Contains(p, "game") && !Contains(p, "score") && !Contains(p, "click") && Contains(p, "play")
  {
    assert Contains("display", "play");
  }

  /** "display" mentions no recipe or emotion keyword. */
  lemma DisplayMissesFirstGroups()
    ensures var p := "display";
            !Contains(p, "recipe") && !Contains(p, "ingredient") && !Contains(p, "cook") && !Contains(p, "food") &&
            !Contains(p, "emotion") && !Contains(p, "feeling") && !Contains(p, "mood") && !Contains(p, "face") &&
            !Contains(p, "expression")
  {
  }

  /** "display" mentions no review or code keyword. */
  lemma DisplayMissesMiddleGroups()
    ensures var p := "display";
            !Contains(p, "review") && !Contains(p, "sentiment") && !Contains(p, "feedback") && !Contains(p, "opinion") &&
            !Contains(p, "code") && !Contains(p, "function") && !Contains(p, "program") && !Contains(p, "script")
  {
  }
}
