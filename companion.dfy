/**
 * The deterministic logic of the server's `MindfulCompanion` (app.py): the crisis-resource
 * text, the role mapping of a transcript into the language model's format, the fallback
 * for an empty model reply, and the fixed greeting.
 */
module Companion {
  import opened Text
  import opened Transcript
  import opened Resources

  /** No key occurs twice, as in a dictionary. */
  predicate DistinctKeys(table: seq<(string, seq<Entry>)>)
  {
    forall i, j :: 0 <= i < j < |table| ==> table[i].0 != table[j].0
  }

  /** `table.get(key, {})`: the entries stored under `key`, or none when `key` is absent. */
  function Get(table: seq<(string, seq<Entry>)>, key: string): (es: seq<Entry>)
    ensures (forall i :: 0 <= i < |table| ==> table[i].0 != key) ==> es == []
    ensures DistinctKeys(table) ==>
      forall i :: 0 <= i < |table| && table[i].0 == key ==> es == table[i].1
  {
    if table == [] then []
    else if table[0].0 == key then table[0].1
    else
      assert DistinctKeys(table) ==> DistinctKeys(table[1..]) by {
        if DistinctKeys(table) {
          forall i, j | 0 <= i < j < |table[1..]| ensures table[1..][i].0 != table[1..][j].0 {
            assert table[1..][i] == table[i + 1] && table[1..][j] == table[j + 1];
          }
        }
      }
      var es := Get(table[1..], key);
      assert forall i :: 1 <= i < |table| ==> table[i] == table[1..][i - 1];
      es
  }

  const Header: string := "Here are some resources " + "that might help!\n\n"
  const InternationalHeading: string := "International resources:\n"

  /** The heading `f"Local resources for {country}:\n"`. */
  function LocalHeading(country: string): string
  {
    "Local resources for " + country + ":\n"
  }

  /** The heading is the country's name between "Local resources for " and ":\n". */
  lemma LocalHeadingParts(country: string)
    ensures var r := LocalHeading(country);
      |r| == 20 + |country| + 2
      && r[..20] == "Local resources for " && r[20..20 + |country|] == country
      && r[20 + |country|..] == ":\n"
  {
  }

  /** The line `f"{name}: {contact}\n"` for one entry. */
  function Line(e: Entry): string
  {
    e.0 + ": " + e.1 + "\n"
  }

  /** A line is the name, the separator ": ", the contact and a line feed, in that order. */
  lemma LineParts(e: Entry)
    ensures var r := Line(e);
      |r| == |e.0| + 2 + |e.1| + 1
      && r[..|e.0|] == e.0 && r[|e.0|..|e.0| + 2] == ": "
      && r[|e.0| + 2..|r| - 1] == e.1 && r[|r| - 1] == '\n'
  {
  }

  /** The lines of `es`, one per entry, in order; empty exactly when there are no entries. */
  function Lines(es: seq<Entry>): (r: string)
    ensures r == "" <==> es == []
  {
    if es == [] then "" else Line(es[0]) + Lines(es[1..])
  }

  /** The lines of some entries end in a line feed and take at least three characters per entry. */
  lemma {:induction false} LinesShape(es: seq<Entry>)
    ensures es != [] ==> Lines(es)[|Lines(es)| - 1] == '\n'
    ensures |Lines(es)| >= 3 * |es|
  {
    if es != [] {
      LinesShape(es[1..]);
      var rest := Lines(es[1..]);
      if rest != [] {
        assert (Line(es[0]) + rest)[|Line(es[0]) + rest| - 1] == rest[|rest| - 1];
      }
    }
  }

  /**
   * The local section: absent exactly when the country has no entries; otherwise the
   * heading, the entries' lines and a closing empty line.
   */
  function LocalSection(table: seq<(string, seq<Entry>)>, country: string): (r: string)
    ensures r == "" <==> Get(table, country) == []
    ensures r != "" ==> LocalHeading(country) <= r && r[|r| - 2..] == "\n\n"
  {
    var es := Get(table, country);
    if es == [] then ""
    else
      var h := LocalHeading(country);
      var ls := Lines(es);
      LinesShape(es);
      assert (h + ls + "\n")[..|h|] == h;
      assert (h + ls + "\n")[|h + ls + "\n"| - 2] == ls[|ls| - 1];
      h + ls + "\n"
  }

  /**
   * The text `get_crisis_resources(country)` builds from `table`: the header, the local
   * section, then the international section of the "General" entries, which is always present.
   */
  function RenderResources(table: seq<(string, seq<Entry>)>, country: string): (r: string)
    requires HasKey(table, "General")
    ensures Header <= r
    ensures |r| > |Header|
  {
    Header + LocalSection(table, country) + InternationalHeading + Lines(Get(table, "General"))
  }

  /** The text served for `country` from the server's own table. */
  function ResourcesText(country: string): (r: string)
    ensures Header <= r
  {
    assert CrisisTable[1].0 == "General";
    RenderResources(CrisisTable, country)
  }

  /** Whether `key` is a key of `table`. */
  predicate HasKey(table: seq<(string, seq<Entry>)>, key: string)
  {
    exists i :: 0 <= i < |table| && table[i].0 == key
  }

  /** Appending one entry appends its line. */
  lemma {:induction false} LinesSnoc(es: seq<Entry>, i: nat)
    requires i < |es|
    ensures Lines(es[..i + 1]) == Lines(es[..i]) + Line(es[i])
  {
    if i == 0 {
      assert es[..1] == [es[0]];
      assert es[..0] == [];
    } else {
      assert es[..i + 1][0] == es[0] && es[..i + 1][1..] == es[1..][..i];
      assert es[..i][0] == es[0] && es[..i][1..] == es[1..][..i - 1];
      LinesSnoc(es[1..], i - 1);
    }
  }

  /** The lines of a split sequence are the lines of its two parts. */
  lemma {:induction false} LinesSplit(es: seq<Entry>, k: nat)
    requires k <= |es|
    ensures Lines(es) == Lines(es[..k]) + Lines(es[k..])
  {
    if k == 0 {
      assert es[..0] == [] && es[0..] == es;
    } else {
      assert es[..k][0] == es[0] && es[..k][1..] == es[1..][..k - 1];
      assert es[1..][k - 1..] == es[k..];
      LinesSplit(es[1..], k - 1);
    }
  }

  /** Entry `k` is rendered as the `k`-th line, after the lines of the entries before it. */
  lemma LinesAt(es: seq<Entry>, k: nat)
    requires k < |es|
    ensures Lines(es) == Lines(es[..k]) + Line(es[k]) + Lines(es[k + 1..])
  {
    LinesSplit(es, k);
    assert es[k..][0] == es[k] && es[k..][1..] == es[k + 1..];
  }

  /**
   * `get_crisis_resources`: the text is accumulated by `+=`, one line per entry, over the
   * local entries (if any) and then over the General entries. `table` is the class
   * attribute `CRISIS_RESOURCES`, whose "General" key the method reads by indexing.
   */
  method GetCrisisResources(table: seq<(string, seq<Entry>)> := CrisisTable, country: string := "Singapore")
    returns (text: string)
    requires HasKey(table, "General")
    ensures text == RenderResources(table, country)
  {
    var resources := Get(table, country);
    var general := Get(table, "General");
    text := Header;
    if resources != [] {
      var local := AppendLines(LocalHeading(country), resources);
      local := local + "\n";
      assert local == LocalSection(table, country);
      text := text + local;
    } else {
      assert LocalSection(table, country) == "";
    }
    text := AppendLines(text + InternationalHeading, general);
  }

  /** The `for name, contact in ….items()` loop: one "name: contact" line per entry, in order. */
  method AppendLines(prefix: string, es: seq<Entry>) returns (text: string)
    ensures text == prefix + Lines(es)
  {
    text := prefix;
    for i := 0 to |es|
      invariant text == prefix + Lines(es[..i])
    {
      var (name, contact) := es[i];
      var line := name + ": " + contact + "\n";
      LinesSnoc(es, i);
      text := text + line;
    }
    assert es[..|es|] == es;
  }

  /** The server's table stores each country's entries under its own key. */
  lemma CrisisTableLookups()
    ensures Get(CrisisTable, "Singapore") == SingaporeResources
    ensures Get(CrisisTable, "General") == GeneralResources
  {
    assert DistinctKeys(CrisisTable);
    assert CrisisTable[0].0 == "Singapore" && CrisisTable[1].0 == "General";
  }

  /** A country that is not a key of the table gets no local section at all. */
  lemma UnknownCountryText(country: string)
    requires country != "Singapore" && country != "General"
    ensures ResourcesText(country) == Header + InternationalHeading + Lines(GeneralResources)
  {
    assert forall i :: 0 <= i < |CrisisTable| ==> CrisisTable[i].0 != country;
    CrisisTableLookups();
  }

  /** Singapore's entries come first, under their heading and in table order, then an empty line. */
  lemma SingaporeText(country: string)
    requires country == "Singapore"
    ensures ResourcesText(country)
      == Header + (LocalHeading(country) + Lines(SingaporeResources) + "\n")
         + InternationalHeading + Lines(GeneralResources)
  {
    CrisisTableLookups();
  }

  /** Asking for "General" lists the General entries twice, first as the local section. */
  lemma GeneralText(country: string)
    requires country == "General"
    ensures ResourcesText(country)
      == Header + (LocalHeading(country) + Lines(GeneralResources) + "\n")
         + InternationalHeading + Lines(GeneralResources)
  {
    CrisisTableLookups();
  }

  /**
   * Every local entry `k` appears as its own line, between the lines of the local entries
   * before it and those after it.
   */
  lemma LocalEntryInOrder(table: seq<(string, seq<Entry>)>, country: string, k: nat)
    requires HasKey(table, "General")
    requires k < |Get(table, country)|
    ensures var es := Get(table, country);
      RenderResources(table, country)
        == Header + (LocalHeading(country) + (Lines(es[..k]) + Line(es[k]) + Lines(es[k + 1..])) + "\n")
           + InternationalHeading + Lines(Get(table, "General"))
  {
    LinesAt(Get(table, country), k);
  }

  /**
   * Every General entry `k` appears as its own line after the international heading,
   * between the lines of the General entries before it and those after it.
   */
  lemma GeneralEntryInOrder(table: seq<(string, seq<Entry>)>, country: string, k: nat)
    requires HasKey(table, "General")
    requires k < |Get(table, "General")|
    ensures var g := Get(table, "General");
      RenderResources(table, country)
        == Header + LocalSection(table, country) + InternationalHeading
           + (Lines(g[..k]) + Line(g[k]) + Lines(g[k + 1..]))
  {
    LinesAt(Get(table, "General"), k);
  }

  /** Whether `t` is a suffix of `s`. */
  predicate EndsWith(s: string, t: string)
  {
    |t| <= |s| && s[|s| - |t|..] == t
  }

  /** The text ends with the line of the last General entry. */
  lemma EndsWithLastGeneral(table: seq<(string, seq<Entry>)>, country: string)
    requires HasKey(table, "General")
    requires Get(table, "General") != []
    ensures var g := Get(table, "General");
      EndsWith(RenderResources(table, country), Line(g[|g| - 1]))
  {
    var g := Get(table, "General");
    var n := |g| - 1;
    LinesSnoc(g, n);
    assert g[..n + 1] == g;
    var front := Header + LocalSection(table, country) + InternationalHeading;
    var last := Line(g[n]);
    assert RenderResources(table, country) == (front + Lines(g[..n])) + last;
    Suffix(front + Lines(g[..n]), last);
  }

  /** A concatenation ends with its second part. */
  lemma Suffix(a: string, b: string)
    ensures EndsWith(a + b, b)
  {
    assert (a + b)[|a|..] == b;
  }

  /** The server's text always ends with the line of its last General entry, "Find a Helpline". */
  lemma ResourcesTextEnding(country: string)
    ensures EndsWith(ResourcesText(country), Line(GeneralResources[2]))
    ensures GeneralResources[2].0 == "Find a Helpline"
  {
    CrisisTableLookups();
    EndsWithLastGeneral(CrisisTable, country);
  }

  /** The lines of entries free of `c` are free of it, unless `c` is part of the ": " or "\n". */
  lemma {:induction false} LinesLack(es: seq<Entry>, c: char)
    requires EntriesLack(es, c) && c != ':' && c != ' ' && c != '\n'
    ensures c !in Lines(es)
  {
    if es != [] {
      assert EntriesLack(es[1..], c) by {
        forall i | 0 <= i < |es[1..]| ensures c !in es[1..][i].0 && c !in es[1..][i].1 {
          assert es[1..][i] == es[i + 1];
        }
      }
      LinesLack(es[1..], c);
      assert c !in Line(es[0]);
    }
  }

  /**
   * A character that occurs in no fixed heading, not in the country's name and in no entry
   * the text lists does not occur in the rendered text at all.
   */
  lemma RenderLacks(table: seq<(string, seq<Entry>)>, country: string, c: char)
    requires HasKey(table, "General")
    requires EntriesLack(Get(table, country), c) && EntriesLack(Get(table, "General"), c)
    requires c !in Header && c !in InternationalHeading && c !in LocalHeading(country)
    requires c != ':' && c != ' ' && c != '\n'
    ensures c !in RenderResources(table, country)
  {
    LinesLack(Get(table, country), c);
    LinesLack(Get(table, "General"), c);
  }

  /** The fixed headings contain no `<`, and neither does a country's heading when its name has none. */
  lemma HeadingsLackAngle(country: string)
    ensures '<' !in Header && '<' !in InternationalHeading
    ensures '<' !in country ==> '<' !in LocalHeading(country)
  {
  }

  /**
   * The text served for any country whose name has no `<` contains no `<`: the table, the
   * headings and the separators have none.
   */
  lemma ResourcesTextLacksAngle(country: string)
    requires '<' !in country
    ensures '<' !in ResourcesText(country)
  {
    CrisisTableLookups();
    TableLacksAngle();
    if country != "Singapore" && country != "General" {
      assert forall i :: 0 <= i < |CrisisTable| ==> CrisisTable[i].0 != country;
    }
    HeadingsLackAngle(country);
    assert CrisisTable[1].0 == "General";
    RenderLacks(CrisisTable, country, '<');
  }

  // ---- role mapping ----

  /** A transcript entry in the model's format, `{"role": ..., "parts": [...]}`. */
  datatype Content = Content(role: string, parts: seq<string>)

  const ModelRole: string := "model"

  /**
   * The list comprehension in `reply`: one entry per turn, in order, carrying the turn's
   * content as its only part; role "user" stays "user" and every other role becomes "model".
   */
  function ToContents(history: seq<Turn>): (cs: seq<Content>)
    ensures |cs| == |history|
    ensures forall i :: 0 <= i < |history| ==>
      cs[i].parts == [history[i].content]
      && (cs[i].role == UserRole || cs[i].role == ModelRole)
      && (cs[i].role == UserRole <==> history[i].role == UserRole)
  {
    if history == [] then []
    else
      var t := history[0];
      var rest := ToContents(history[1..]);
      assert forall i :: 1 <= i < |history| ==> history[i] == history[1..][i - 1];
      [Content(if t.role == UserRole then UserRole else ModelRole, [t.content])] + rest
  }

  /** Mapping a transcript extended by some turns is mapping it and appending their mapping. */
  lemma {:induction false} ToContentsAppend(a: seq<Turn>, b: seq<Turn>)
    ensures ToContents(a + b) == ToContents(a) + ToContents(b)
  {
    if a != [] {
      assert (a + b)[0] == a[0] && (a + b)[1..] == a[1..] + b;
      ToContentsAppend(a[1..], b);
    } else {
      assert a + b == b;
    }
  }

  // ---- the reply text and the greeting ----

  // Long literals are written as concatenations of short ones, which the verifier reads faster.
  const FallbackReply: string :=
    "I'm here with you. Could you share a bit more " + "about how you're feeling right now?"

  /**
   * The end of `reply` once the model has answered: `(response.text or "").strip()`, or the
   * fixed prompt when that is empty. `generated` is `response.text`, `None` when it has none.
   * The result is never empty and is always stripped.
   */
  function ReplyText(generated: Option<string>): (r: string)
    ensures r != ""
    ensures r != FallbackReply ==> Strip(r, PythonWhitespace) == r
    ensures generated.Some? && Strip(generated.value, PythonWhitespace) != "" ==>
      r == Strip(generated.value, PythonWhitespace)
    ensures generated.None? || Strip(generated.value, PythonWhitespace) == "" ==>
      r == FallbackReply
  {
    var raw := Strip(if generated.Some? then generated.value else "", PythonWhitespace);
    StripIdempotent(if generated.Some? then generated.value else "", PythonWhitespace);
    if raw != "" then raw else FallbackReply
  }

  /**
   * `reply(chat_history)` on the path where the model answers: the transcript is mapped into
   * the model's format and handed to `generate`, which stands for the language model.
   */
  function Reply(history: seq<Turn>, generate: seq<Content> -> Option<string>): (r: string)
    ensures r != ""
    ensures r != FallbackReply ==> Strip(r, PythonWhitespace) == r
  {
    ReplyText(generate(ToContents(history)))
  }

  // Split into short literals for the verifier, as FallbackReply is.
  const Greeting: string :=
    "Hello, I am Project Mindfull. " + "Your personal healthcare companion. " + "How are you today?"

  /** `start()`: the same fixed greeting on every call; it is never empty. */
  function Start(): (r: string)
    ensures r != ""
  {
    Greeting
  }
}
