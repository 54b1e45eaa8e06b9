/**
 * The crawler classifier `isBotRequest` and the footer label that the bot
 * page prints, which uses a different, case-sensitive test.
 */
module Classifier {
  import opened Text

  /** The nine crawler signatures, in the order the source lists them. */
  const BotPatterns: seq<string> := [
    "twitterbot",
    "facebookexternalhit",
    "linkedinbot",
    "whatsapp",
    "telegrambot",
    "slackbot",
    "discordbot",
    "googlebot",
    "bingbot"
  ]

  /** `patterns.some(p => lowered.includes(p.toLowerCase()))`, left to right. */
  function SomePatternIncluded(lowered: string, patterns: seq<string>): bool
  {
    if patterns == [] then false
    else Includes(lowered, ToLower(patterns[0])) || SomePatternIncluded(lowered, patterns[1..])
  }

  /**
   * `isBotRequest(userAgent)`: an empty User-Agent is not a crawler; otherwise a
   * crawler exactly when its lower-cased text contains one of the signatures.
   */
  function IsBotRequest(userAgent: string): (isBot: bool)
    ensures userAgent == "" ==> !isBot
    ensures isBot ==> exists k :: 0 <= k < |BotPatterns| && Occurs(BotPatterns[k], ToLower(userAgent))
  {
    if userAgent == "" then false
    else
      var isBot := SomePatternIncluded(ToLower(userAgent), BotPatterns);
      SignaturesFound(userAgent);
      isBot
  }

  /** A signature `some` finds in the lower-cased User-Agent occurs there verbatim. */
  lemma SignaturesFound(userAgent: string)
    ensures SomePatternIncluded(ToLower(userAgent), BotPatterns)
        ==> exists k :: 0 <= k < |BotPatterns| && Occurs(BotPatterns[k], ToLower(userAgent))
  {
    PatternsAreLower();
    SomePatternIncludedIff(ToLower(userAgent), BotPatterns);
    forall k | 0 <= k < |BotPatterns| ensures ToLower(BotPatterns[k]) == BotPatterns[k] {
      ToLowerOfLower(BotPatterns[k]);
    }
  }

  /** Every signature is already lower case, so `pattern.toLowerCase()` is the pattern itself. */
  lemma PatternsAreLower()
    ensures forall k :: 0 <= k < |BotPatterns| ==> IsLower(BotPatterns[k])
  {
  }

  /** `some` is an existential over the list. */
  lemma {:induction false} SomePatternIncludedIff(lowered: string, patterns: seq<string>)
    ensures SomePatternIncluded(lowered, patterns)
        <==> exists k :: 0 <= k < |patterns| && Occurs(ToLower(patterns[k]), lowered)
  {
    if patterns != [] {
      IncludesIffOccurs(lowered, ToLower(patterns[0]));
      SomePatternIncludedIff(lowered, patterns[1..]);
      if exists k :: 0 <= k < |patterns| && Occurs(ToLower(patterns[k]), lowered) {
        var k :| 0 <= k < |patterns| && Occurs(ToLower(patterns[k]), lowered);
        if k > 0 {
          assert patterns[1..][k - 1] == patterns[k];
        }
      }
      if SomePatternIncluded(lowered, patterns[1..]) {
        var k :| 0 <= k < |patterns[1..]| && Occurs(ToLower(patterns[1..][k]), lowered);
        assert patterns[k + 1] == patterns[1..][k];
      }
    }
  }

  /**
   * The classifier's meaning: false for an empty User-Agent, otherwise true
   * exactly when some signature occurs in the lower-cased User-Agent.
   */
  lemma IsBotRequestIff(userAgent: string)
    ensures !IsBotRequest("")
    ensures IsBotRequest(userAgent)
        <==> userAgent != "" && exists k :: 0 <= k < |BotPatterns| && Occurs(BotPatterns[k], ToLower(userAgent))
  {
    PatternsAreLower();
    SomePatternIncludedIff(ToLower(userAgent), BotPatterns);
    forall k | 0 <= k < |BotPatterns| ensures ToLower(BotPatterns[k]) == BotPatterns[k] {
      ToLowerOfLower(BotPatterns[k]);
    }
  }

  /** The footer label of the bot page: `userAgent.includes('bot')`, case-sensitive. */
  function DetectionLabel(userAgent: string): (shown: string)
    ensures shown == "BOT REQUEST" || shown == "HUMAN REQUEST"
  {
    if Includes(userAgent, "bot") then "BOT REQUEST" else "HUMAN REQUEST"
  }


  /** A User-Agent in which some signature occurs, ignoring case, is a crawler. */
  lemma SignatureMakesBot(userAgent: string, k: nat)
    requires k < |BotPatterns| && Occurs(BotPatterns[k], ToLower(userAgent))
    ensures IsBotRequest(userAgent)
  {
    IsBotRequestIff(userAgent);
    assert |BotPatterns[k]| > 0;
  }

  /** A User-Agent in which no signature occurs, ignoring case, is not a crawler. */
  lemma NoSignatureNotBot(userAgent: string)
    requires forall k :: 0 <= k < |BotPatterns| ==> !Occurs(BotPatterns[k], ToLower(userAgent))
    ensures !IsBotRequest(userAgent)
  {
    IsBotRequestIff(userAgent);
  }

  /** The footer label says "BOT REQUEST" exactly when a lower-case "bot" occurs in the raw User-Agent. */
  lemma DetectionLabelIff(userAgent: string)
    ensures DetectionLabel(userAgent) == "BOT REQUEST" <==> Occurs("bot", userAgent)
  {
    IncludesIffOccurs(userAgent, "bot");
  }

  /** Without a lower-case "bot" in the raw User-Agent the footer says "HUMAN REQUEST". */
  lemma HumanLabelWithoutBot(userAgent: string)
    requires !Occurs("bot", userAgent)
    ensures DetectionLabel(userAgent) == "HUMAN REQUEST"
  {
    DetectionLabelIff(userAgent);
  }

  /** A Twitter crawler is a crawler. */
  lemma TwitterbotIsBot()
    ensures IsBotRequest("Twitterbot/1.0")
  {
    assert ToLower("Twitterbot/1.0") == "twitterbot/1.0";
    assert OccursAt(BotPatterns[0], "twitterbot/1.0", 0);
    SignatureMakesBot("Twitterbot/1.0", 0);
  }

  /** Facebook's crawler is a crawler. */
  lemma FacebookIsBot()
    ensures IsBotRequest("facebookexternalhit/1.1")
  {
    assert ToLower("facebookexternalhit/1.1") == "facebookexternalhit/1.1";
    assert OccursAt(BotPatterns[1], "facebookexternalhit/1.1", 0);
    SignatureMakesBot("facebookexternalhit/1.1", 1);
  }

  /** LinkedIn's crawler is a crawler, although its signature is written with capitals. */
  lemma LinkedInIsBot()
    ensures IsBotRequest("LinkedInBot/1.0")
  {
    assert ToLower("LinkedInBot/1.0") == "linkedinbot/1.0";
    assert OccursAt(BotPatterns[2], "linkedinbot/1.0", 0);
    SignatureMakesBot("LinkedInBot/1.0", 2);
  }

  /** WhatsApp's link fetcher is a crawler. */
  lemma WhatsAppIsBot()
    ensures IsBotRequest("WhatsApp/2.0")
  {
    assert ToLower("WhatsApp/2.0") == "whatsapp/2.0";
    assert OccursAt(BotPatterns[3], "whatsapp/2.0", 0);
    SignatureMakesBot("WhatsApp/2.0", 3);
  }

  /** A desktop browser is not a crawler. */
  lemma BrowserIsNotBot()
    ensures !IsBotRequest("Mozilla/5.0")
  {
    assert ToLower("Mozilla/5.0") == "mozilla/5.0";
    forall k | 0 <= k < |BotPatterns| ensures !Occurs(BotPatterns[k], "mozilla/5.0") {
      // every signature but linkedinbot starts with a letter the browser string lacks
      AbsentCharNotOccurs(BotPatterns[k], "mozilla/5.0", if k == 2 then 4 else 0);
    }
    NoSignatureNotBot("Mozilla/5.0");
  }

  /**
   * The footer label disagrees with the classifier: Facebook's crawler is served
   * the crawler page, yet the page calls it a human request, because the label
   * looks for a lower-case "bot" in the raw User-Agent.
   */
  lemma FacebookLabelledHuman()
    ensures IsBotRequest("facebookexternalhit/1.1")
    ensures DetectionLabel("facebookexternalhit/1.1") == "HUMAN REQUEST"
  {
    FacebookIsBot();
    AbsentPairNotOccurs("bot", "facebookexternalhit/1.1", 1);
    HumanLabelWithoutBot("facebookexternalhit/1.1");
  }

  /** The Twitter crawler's footer says "BOT REQUEST": its User-Agent has a lower-case "bot". */
  lemma TwitterbotLabelledBot()
    ensures DetectionLabel("Twitterbot/1.0") == "BOT REQUEST"
  {
    assert OccursAt("bot", "Twitterbot/1.0", 7);
    DetectionLabelIff("Twitterbot/1.0");
  }

  /** LinkedIn's crawler is classified as a crawler but labelled a human: its "Bot" is capitalised. */
  lemma LinkedInLabelledHuman()
    ensures IsBotRequest("LinkedInBot/1.0")
    ensures DetectionLabel("LinkedInBot/1.0") == "HUMAN REQUEST"
  {
    LinkedInIsBot();
    AbsentCharNotOccurs("bot", "LinkedInBot/1.0", 0);
    HumanLabelWithoutBot("LinkedInBot/1.0");
  }

  /** WhatsApp's fetcher is classified as a crawler but labelled a human. */
  lemma WhatsAppLabelledHuman()
    ensures IsBotRequest("WhatsApp/2.0")
    ensures DetectionLabel("WhatsApp/2.0") == "HUMAN REQUEST"
  {
    WhatsAppIsBot();
    AbsentCharNotOccurs("bot", "WhatsApp/2.0", 0);
    HumanLabelWithoutBot("WhatsApp/2.0");
  }
}
