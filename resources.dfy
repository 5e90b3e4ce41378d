/** The crisis-resource table `CRISIS_RESOURCES` of app.py, and facts about its characters. */
module Resources {

  /** A (name, contact) pair of the crisis-resource table. */
  type Entry = (string, string)

  // Literals longer than about forty characters are written as two pieces, which the
  // verifier reads character by character far more cheaply.

  /** The resources for Singapore, in insertion order. */
  const SingaporeResources: seq<Entry> := [
    ("Samaritans of Singapore (SOS)", "1767"),
    ("Link to SOS", "https://www.sos.org.sg \n"),
    ("Institute of Mental Health (IMH)", "6389 2222"),
    ("Link to IMH", "https://www.imh.com.sg/" + "Pages/default.aspx \n"),
    ("Singapore Association " + "for Mental Health (SAMH)", "1800 283 7019"),
    ("Link to SAMH", "https://www.samhealth.org.sg")
  ]

  /** The international resources, in insertion order. */
  const GeneralResources: seq<Entry> := [
    ("International Suicide Prevention", "https://www.iasp.info/" + "resources/Crisis_Centres/"),
    ("Crisis Text Line", "Text HOME to 741741"),
    ("Find a Helpline", "https://findahelpline.com/")
  ]

  /** The two-level table `CRISIS_RESOURCES`: country to its ordered entries. */
  const CrisisTable: seq<(string, seq<Entry>)> := [
    ("Singapore", SingaporeResources),
    ("General", GeneralResources)
  ]

  /** No name and no contact of `es` contains `c`. */
  predicate EntriesLack(es: seq<Entry>, c: char)
  {
    forall i :: 0 <= i < |es| ==> c !in es[i].0 && c !in es[i].1
  }

  // One lemma per entry: each proof reads only that entry's characters.

  /** The Samaritans of Singapore entry contains no `<`. */
  lemma SosLacksAngle()
    ensures '<' !in SingaporeResources[0].0 && '<' !in SingaporeResources[0].1
  {
  }

  /** The link to the Samaritans of Singapore entry contains no `<`. */
  lemma SosLinkLacksAngle()
    ensures '<' !in SingaporeResources[1].0 && '<' !in SingaporeResources[1].1
  {
  }

  /** The Institute of Mental Health entry contains no `<`. */
  lemma ImhLacksAngle()
    ensures '<' !in SingaporeResources[2].0 && '<' !in SingaporeResources[2].1
  {
  }

  /** The link to the Institute of Mental Health entry contains no `<`. */
  lemma ImhLinkLacksAngle()
    ensures '<' !in SingaporeResources[3].0 && '<' !in SingaporeResources[3].1
  {
  }

  /** The Singapore Association for Mental Health entry contains no `<`. */
  lemma SamhLacksAngle()
    ensures '<' !in SingaporeResources[4].0 && '<' !in SingaporeResources[4].1
  {
  }

  /** The link to the Singapore Association for Mental Health entry contains no `<`. */
  lemma SamhLinkLacksAngle()
    ensures '<' !in SingaporeResources[5].0 && '<' !in SingaporeResources[5].1
  {
  }

  /** The International Suicide Prevention entry contains no `<`. */
  lemma IaspLacksAngle()
    ensures '<' !in GeneralResources[0].0 && '<' !in GeneralResources[0].1
  {
  }

  /** The Crisis Text Line entry contains no `<`. */
  lemma TextLineLacksAngle()
    ensures '<' !in GeneralResources[1].0 && '<' !in GeneralResources[1].1
  {
  }

  /** The Find a Helpline entry contains no `<`. */
  lemma HelplineLacksAngle()
    ensures '<' !in GeneralResources[2].0 && '<' !in GeneralResources[2].1
  {
  }

  /**
   * No name and no contact in the table contains `<`, so nothing in it can be read as an
   * HTML tag once the widget injects it.
   */
  lemma TableLacksAngle()
    ensures EntriesLack(SingaporeResources, '<') && EntriesLack(GeneralResources, '<')
  {
    SosLacksAngle();
    SosLinkLacksAngle();
    ImhLacksAngle();
    ImhLinkLacksAngle();
    SamhLacksAngle();
    SamhLinkLacksAngle();
    IaspLacksAngle();
    TextLineLacksAngle();
    HelplineLacksAngle();
    forall i | 0 <= i < |SingaporeResources|
      ensures '<' !in SingaporeResources[i].0 && '<' !in SingaporeResources[i].1
    {
      assert i == 0 || i == 1 || i == 2 || i == 3 || i == 4 || i == 5;
    }
    forall i | 0 <= i < |GeneralResources|
      ensures '<' !in GeneralResources[i].0 && '<' !in GeneralResources[i].1
    {
      assert i == 0 || i == 1 || i == 2;
    }
  }
}
