/**
 * The voice command dispatcher of `src/context/VoiceContext.tsx`
 * (`handleVoiceCommand`): the spoken command is lower-cased and checked for
 * keywords in a fixed order, and the first group that matches picks the one
 * reply that is spoken.
 *
 * Speaking is a browser call; here the dispatcher returns which reply it
 * would speak, and `Utterance` gives its text.
 */
module VoiceContext {
  import opened Text

  /** The five replies the assistant can speak. */
  datatype Reply = WeatherReport | YieldReport | IrrigationAdvice | MarketReport | Help

  /** The text spoken for a reply. */
  function Utterance(r: Reply): string
  {
    match r
    case WeatherReport =>
      "Today's weather shows 25 degrees Celsius with 60% chance of rain. Perfect conditions for your corn crop."
    case YieldReport =>
      "Your corn yield prediction is 8.5 tons per hectare this season, which is 15% above average."
    case IrrigationAdvice =>
      "Based on soil moisture levels, I recommend irrigating your north field tomorrow morning for 45 minutes."
    case MarketReport =>
      "Current corn prices are $180 per ton. This is a good time to consider selling your harvest."
    case Help =>
      "I can help you with weather forecasts, yield predictions, irrigation advice, and market prices. What would you like to know?"
  }

  /** The command mentions the (lower-case) keyword, in any letter case. */
  predicate Mentions(command: string, keyword: string)
  {
    Contains(ToLower(command), keyword)
  }

  /** `handleVoiceCommand`: which reply a command gets. */
  function HandleVoiceCommand(command: string): (r: Reply)
    ensures r == WeatherReport <==> Mentions(command, "weather")
    ensures r == YieldReport <==>
      !Mentions(command, "weather") && (Mentions(command, "yield") || Mentions(command, "prediction"))
    ensures r == IrrigationAdvice <==>
      && !Mentions(command, "weather") && !Mentions(command, "yield") && !Mentions(command, "prediction")
      && (Mentions(command, "irrigation") || Mentions(command, "water"))
    ensures r == MarketReport <==>
      && !Mentions(command, "weather") && !Mentions(command, "yield") && !Mentions(command, "prediction")
      && !Mentions(command, "irrigation") && !Mentions(command, "water")
      && (Mentions(command, "price") || Mentions(command, "market"))
    ensures r == Help <==>
      forall k :: k in Keywords ==> !Mentions(command, k)
  {
    var lowerCommand := ToLower(command);
    if Contains(lowerCommand, "weather") then WeatherReport
    else if Contains(lowerCommand, "yield") || Contains(lowerCommand, "prediction") then YieldReport
    else if Contains(lowerCommand, "irrigation") || Contains(lowerCommand, "water") then IrrigationAdvice
    else if Contains(lowerCommand, "price") || Contains(lowerCommand, "market") then MarketReport
    else Help
  }

  /** The keyword groups in the order they are tried, each with the reply it selects. */
  const Rules: seq<(seq<string>, Reply)> := [
    (["weather"], WeatherReport),
    (["yield", "prediction"], YieldReport),
    (["irrigation", "water"], IrrigationAdvice),
    (["price", "market"], MarketReport)
  ]

  /** Every keyword of every group. */
  const Keywords: set<string> := {"weather", "yield", "prediction", "irrigation", "water", "price", "market"}

  /** The text contains one of the keywords. */
  predicate AnyIn(text: string, keywords: seq<string>)
  {
    exists i :: 0 <= i < |keywords| && Contains(text, keywords[i])
  }

  /** A table-driven dispatcher: the reply of the first group with a keyword in the text, else help. */
  function FirstMatch(rules: seq<(seq<string>, Reply)>, text: string): Reply
  {
    if rules == [] then Help
    else if AnyIn(text, rules[0].0) then rules[0].1
    else FirstMatch(rules[1..], text)
  }

  /** The if-chain of the page and the rule table give the same reply for every command. */
  lemma DispatchFollowsRules(command: string)
    ensures HandleVoiceCommand(command) == FirstMatch(Rules, ToLower(command))
  {
    var text := ToLower(command);
    var weather, yieldAsked, irrigation, market := Contains(text, "weather"),
      Contains(text, "yield") || Contains(text, "prediction"),
      Contains(text, "irrigation") || Contains(text, "water"),
      Contains(text, "price") || Contains(text, "market");
    AnyInPair(text, "yield", "prediction");
    AnyInPair(text, "irrigation", "water");
    AnyInPair(text, "price", "market");
    assert AnyIn(text, ["weather"]) == weather by {
      assert ["weather"][0] == "weather";
    }
    var last := FirstMatch(Rules[3..], text);
    assert Rules[3..][0] == (["price", "market"], MarketReport) && Rules[3..][1..] == [];
    assert AnyIn(text, Rules[3..][0].0) == market;
    assert FirstMatch(Rules[3..][1..], text) == Help;
    assert last == if market then MarketReport else Help;
    var third := FirstMatch(Rules[2..], text);
    assert Rules[2..][0] == (["irrigation", "water"], IrrigationAdvice) && Rules[2..][1..] == Rules[3..];
    assert third == if irrigation then IrrigationAdvice else last;
    var second := FirstMatch(Rules[1..], text);
    assert Rules[1..][0] == (["yield", "prediction"], YieldReport) && Rules[1..][1..] == Rules[2..];
    assert second == if yieldAsked then YieldReport else third;
    assert FirstMatch(Rules, text) == if weather then WeatherReport else second;
    assert HandleVoiceCommand(command)
      == if weather then WeatherReport else if yieldAsked then YieldReport
         else if irrigation then IrrigationAdvice else if market then MarketReport else Help;
  }

  /** A two-keyword group matches when either keyword does. */
  lemma AnyInPair(text: string, k1: string, k2: string)
    ensures AnyIn(text, [k1, k2]) <==> Contains(text, k1) || Contains(text, k2)
  {
    assert [k1, k2][0] == k1 && [k1, k2][1] == k2;
  }

  /** The letter case of a command never changes its reply. */
  lemma CaseDoesNotMatter(command: string)
    ensures HandleVoiceCommand(command) == HandleVoiceCommand(ToLower(command))
  {
    ToLowerIdempotent(command);
  }

  /** A keyword a command mentions is still mentioned once more is said after it. */
  lemma MentionedAfterMore(command: string, more: string, keyword: string)
    requires Mentions(command, keyword)
    ensures Mentions(command + more, keyword)
  {
    var lowerCommand, lowerMore := ToLower(command), ToLower(more);
    ToLowerAppend(command, more);
    ContainsInLonger(lowerCommand, keyword, [], lowerMore);
    assert [] + lowerCommand == lowerCommand;
  }

  /** Saying more after a weather question still gets the weather report. */
  lemma WeatherWins(command: string, more: string)
    requires Mentions(command, "weather")
    ensures HandleVoiceCommand(command + more) == WeatherReport
  {
    MentionedAfterMore(command, more, "weather");
  }

  /**
   * Keywords match inside longer words: a command that reads "watering" in
   * any letter case asks for irrigation advice.
   */
  lemma WateringAsksForIrrigation(command: string)
    requires ToLower(command) == "watering"
    ensures HandleVoiceCommand(command) == IrrigationAdvice
  {
    var w := ToLower(command);
    assert OccursAt(w, "water", 0);
    ContainsMeansOccurs(w, "water");
    LacksLetterPair(w, "weather");
    LacksFirstLetter(w, "yield");
    LacksFirstLetter(w, "prediction");
  }

  /** Text without the first letter of a keyword does not contain it. */
  lemma LacksFirstLetter(s: string, sub: string)
    requires sub != [] && forall i :: 0 <= i < |s| ==> s[i] != sub[0]
    ensures !Contains(s, sub)
  {
    forall i ensures !OccursAt(s, sub, i) {
      if 0 <= i && i + |sub| <= |s| {
        assert s[i..i + |sub|][0] == s[i];
      }
    }
    ContainsMeansOccurs(s, sub);
  }

  /** Text in which the first two letters of a keyword never stand together does not contain it. */
  lemma LacksLetterPair(s: string, sub: string)
    requires |sub| >= 2 && forall i :: 0 <= i < |s| - 1 ==> !(s[i] == sub[0] && s[i + 1] == sub[1])
    ensures !Contains(s, sub)
  {
    forall i ensures !OccursAt(s, sub, i) {
      if 0 <= i && i + |sub| <= |s| {
        assert s[i..i + |sub|][0] == s[i] && s[i..i + |sub|][1] == s[i + 1];
      }
    }
    ContainsMeansOccurs(s, sub);
  }
}
