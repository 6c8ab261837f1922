/** Bin-type colour classification (backend/Services/BinScraperService.cs:163-174,
    backend/app/main.py:155-165): an ordered rule table over the lower-cased label,
    first match wins, "Unknown" when nothing matches. */
module Classification {

  import opened Text

  /** The six colour names a classified collection can carry. */
  const Colours: set<string> := {"Black", "Blue", "Brown", "Green", "Purple", "Unknown"}

  /** The ten keywords the classifier looks for, in rule order. */
  const Keywords: seq<string> :=
    ["black", "general", "blue", "recycling", "brown", "compost", "green", "food", "purple", "glass"]

  /** A rule: if the lower-cased label contains any of `keywords`, the colour is `colour`. */
  datatype Rule = Rule(keywords: seq<string>, colour: string)

  /** The rule table, highest priority first. */
  const Rules: seq<Rule> := [
    Rule(["black", "general"], "Black"),
    Rule(["blue", "recycling"], "Blue"),
    Rule(["brown", "compost"], "Brown"),
    Rule(["green", "food"], "Green"),
    Rule(["purple", "glass"], "Purple")
  ]

  predicate Matches(rule: Rule, lowered: string)
  {
    exists k :: 0 <= k < |rule.keywords| && Contains(lowered, rule.keywords[k])
  }

  /** Reference semantics of an ordered rule table: the colour of the first matching rule. */
  function FirstMatch(rules: seq<Rule>, lowered: string): string
  {
    if rules == [] then "Unknown"
    else if Matches(rules[0], lowered) then rules[0].colour
    else FirstMatch(rules[1..], lowered)
  }

  /** The source's classification: lower-case the bin type, then run the chain. */
  function ColourOf(binType: string): (colour: string)
    ensures colour in Colours
  {
    ClassifyLowered(Lower(binType))
  }

  /** The source's if/else-if chain over the lower-cased bin type. */
  function ClassifyLowered(lower: string): string
  {
    if Contains(lower, "black") || Contains(lower, "general") then "Black"
    else if Contains(lower, "blue") || Contains(lower, "recycling") then "Blue"
    else if Contains(lower, "brown") || Contains(lower, "compost") then "Brown"
    else if Contains(lower, "green") || Contains(lower, "food") then "Green"
    else if Contains(lower, "purple") || Contains(lower, "glass") then "Purple"
    else "Unknown"
  }

  /** The rule table picks the colour of rule `i` exactly when rule `i` matches and no earlier rule does;
      it gives "Unknown" exactly when no rule matches (the table's colours are distinct, none "Unknown"). */
  lemma {:induction false} FirstMatchWins(rules: seq<Rule>, lowered: string, i: nat)
    requires i < |rules|
    requires forall a, b :: 0 <= a < b < |rules| ==> rules[a].colour != rules[b].colour
    requires forall a :: 0 <= a < |rules| ==> rules[a].colour != "Unknown"
    ensures FirstMatch(rules, lowered) == rules[i].colour <==>
              Matches(rules[i], lowered) && forall j :: 0 <= j < i ==> !Matches(rules[j], lowered)
  {
    if i > 0 {
      if Matches(rules[0], lowered) {
        assert rules[0].colour != rules[i].colour;
      } else {
        FirstMatchWins(rules[1..], lowered, i - 1);
        forall j | 0 <= j < i - 1 ensures rules[1..][j] == rules[j + 1] { }
      }
    } else if !Matches(rules[0], lowered) {
      FirstMatchAvoidsForeignColour(rules[1..], lowered, rules[0].colour);
    }
  }

  /** A colour that no rule carries, other than "Unknown", is never produced. */
  lemma {:induction false} FirstMatchAvoidsForeignColour(rules: seq<Rule>, lowered: string, c: string)
    requires c != "Unknown"
    requires forall a :: 0 <= a < |rules| ==> rules[a].colour != c
    ensures FirstMatch(rules, lowered) != c
  {
    if rules != [] && !Matches(rules[0], lowered) {
      FirstMatchAvoidsForeignColour(rules[1..], lowered, c);
    }
  }

  /** A two-keyword rule matches exactly when one of its two keywords occurs. */
  lemma MatchesEither(rule: Rule, lowered: string)
    requires |rule.keywords| == 2
    ensures Matches(rule, lowered) <==> Contains(lowered, rule.keywords[0]) || Contains(lowered, rule.keywords[1])
  {
    if Contains(lowered, rule.keywords[0]) {
      assert 0 < |rule.keywords|;
    } else if Contains(lowered, rule.keywords[1]) {
      assert 1 < |rule.keywords|;
    }
  }

  /** The if/else chain is the rule table applied first-match-wins. */
  lemma ColourOfIsFirstMatch(binType: string)
    ensures ColourOf(binType) == FirstMatch(Rules, Lower(binType))
  {
    var lower := Lower(binType);
    MatchesEither(Rules[0], lower);
    MatchesEither(Rules[1], lower);
    MatchesEither(Rules[2], lower);
    MatchesEither(Rules[3], lower);
    MatchesEither(Rules[4], lower);
    assert Rules[4..][1..] == [];
    assert FirstMatch(Rules[4..], lower) == (if Matches(Rules[4], lower) then "Purple" else "Unknown");
    assert FirstMatch(Rules[3..], lower) == (if Matches(Rules[3], lower) then "Green" else FirstMatch(Rules[4..], lower));
    assert FirstMatch(Rules[2..], lower) == (if Matches(Rules[2], lower) then "Brown" else FirstMatch(Rules[3..], lower));
    assert FirstMatch(Rules[1..], lower) == (if Matches(Rules[1], lower) then "Blue" else FirstMatch(Rules[2..], lower));
  }

  /** The label is classified "Unknown" exactly when none of the ten keywords occurs in its lower-cased form. */
  lemma UnknownIffNoKeyword(binType: string)
    ensures ColourOf(binType) == "Unknown" <==>
              forall k :: 0 <= k < |Keywords| ==> !Contains(Lower(binType), Keywords[k])
  {
    var lower := Lower(binType);
    if ColourOf(binType) != "Unknown" {
      var k :| 0 <= k < |Keywords| && Contains(lower, Keywords[k]) by {
        if Contains(lower, Keywords[0]) { } else if Contains(lower, Keywords[1]) { }
        else if Contains(lower, Keywords[2]) { } else if Contains(lower, Keywords[3]) { }
        else if Contains(lower, Keywords[4]) { } else if Contains(lower, Keywords[5]) { }
        else if Contains(lower, Keywords[6]) { } else if Contains(lower, Keywords[7]) { }
        else if Contains(lower, Keywords[8]) { } else { assert Contains(lower, Keywords[9]); }
      }
    }
  }

  /** Rule priority: a label gets the colour of rule `i` exactly when rule `i` matches its lower-cased form
      and no earlier rule does; so later rules apply only when all earlier ones fail. */
  lemma ClassifiedByRule(binType: string, i: nat)
    requires i < |Rules|
    ensures ColourOf(binType) == Rules[i].colour <==>
              Matches(Rules[i], Lower(binType)) && forall j :: 0 <= j < i ==> !Matches(Rules[j], Lower(binType))
  {
    ColourOfIsFirstMatch(binType);
    FirstMatchWins(Rules, Lower(binType), i);
  }

  /** "Black Food Waste" also names a food bin, but the black rule comes first. */
  lemma BlackFoodWasteIsBlack()
    ensures Matches(Rules[3], Lower("Black Food Waste"))
    ensures ColourOf("Black Food Waste") == "Black"
  {
    ContainsLowerAt("Black Food Waste", "black", 0);
    ContainsLowerAt("Black Food Waste", "food", 6);
    MatchesEither(Rules[3], Lower("Black Food Waste"));
  }
}
