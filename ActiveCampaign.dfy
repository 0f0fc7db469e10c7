// src/utils/activecampaign.ts: the delivery-time text sent to the CRM.

module ActiveCampaign {
  import opened Text

  /** `formatDeliveryTime(time)` */
  function FormatDeliveryTime(time: string): (r: string)
    ensures r == time || IsDeliveryLabel(r)
    ensures time == "" ==> r == ""
  {
    if time == "" then ""
    else
      var cleaned := Lower(Trim(time));
      if Contains(cleaned, "morning") then "Morning delivery"
      else if Contains(cleaned, "afternoon") then "Afternoon delivery"
      else if Contains(cleaned, "evening") then "Evening delivery"
      else time
  }

  /** The three answers the keywords give. */
  predicate IsDeliveryLabel(s: string)
  {
    s == "Morning delivery" || s == "Afternoon delivery" || s == "Evening delivery"
  }

  /**
   * The result is a keyword's label exactly when the cleaned text holds a
   * keyword, morning before afternoon before evening; otherwise it is the
   * text as given, untrimmed.
   */
  lemma DeliveryTimeCases(time: string)
    ensures var cleaned := Lower(Trim(time));
      var r := FormatDeliveryTime(time);
      && (time != "" && Contains(cleaned, "morning") ==> r == "Morning delivery")
      && (time != "" && !Contains(cleaned, "morning") && Contains(cleaned, "afternoon") ==> r == "Afternoon delivery")
      && (time != "" && !Contains(cleaned, "morning") && !Contains(cleaned, "afternoon") && Contains(cleaned, "evening")
          ==> r == "Evening delivery")
      && (!Contains(cleaned, "morning") && !Contains(cleaned, "afternoon") && !Contains(cleaned, "evening") ==> r == time)
  {
  }

  /**
   * A keyword anywhere in the text, in any case and whatever white space
   * surrounds the text, is found.
   */
  lemma KeywordAnywhere(time: string, keyword: string)
    requires keyword == "morning" || keyword == "afternoon" || keyword == "evening"
    requires Contains(Lower(time), keyword)
    ensures IsDeliveryLabel(FormatDeliveryTime(time))
  {
    KeywordNoSpace(keyword);
    KeywordSurvivesCleaning(time, keyword);
  }

  lemma KeywordNoSpace(keyword: string)
    requires keyword == "morning" || keyword == "afternoon" || keyword == "evening"
    ensures |keyword| > 0 && NoSpace(keyword)
  {
  }

  lemma KeywordSurvivesCleaning(time: string, w: string)
    requires |w| > 0 && NoSpace(w) && Contains(Lower(time), w)
    ensures time != "" && Contains(Lower(Trim(time)), w)
  {
    TrimLower(time);
    ContainsTrim(Lower(time), w);
  }

  /** Without a keyword the text comes back exactly as given, white space and case included. */
  lemma NoKeywordUnchanged(time: string)
    requires !Contains(Lower(time), "morning") && !Contains(Lower(time), "afternoon")
    requires !Contains(Lower(time), "evening")
    ensures FormatDeliveryTime(time) == time
  {
    TrimLower(time);
    if time != "" {
      ContainsOfTrim(Lower(time), "morning");
      ContainsOfTrim(Lower(time), "afternoon");
      ContainsOfTrim(Lower(time), "evening");
    }
  }
}
