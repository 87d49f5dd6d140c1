/** `categorize_text`: the ordered, first-match-wins rule that turns a
    submitted text into one of three categories. Language detection and
    named-entity recognition are statistical models outside the model: the
    detected language tag (or "unknown" when detection raised) and the
    labels of the recognised entities are inputs. */
module Classifier {
  import opened Text

  datatype Category = Personal | Offers | Gibberish {
    /** The label used both as the `category` field and as the partition
        directory under `requests/`. */
    function Name(): string {
      match this
      case Personal => "personal"
      case Offers => "offers"
      case Gibberish => "gibberish"
    }
  }

  /** Distinct categories have distinct labels, so a label names one
      partition and one category. */
  lemma NameInjective(a: Category, b: Category)
    requires a.Name() == b.Name()
    ensures a == b
  {
  }

  /** Name and nickname variants of the bot's owner. */
  const PersonalKeywords: seq<string> := ["влад", "владислав", "vlad", "vladislav"]

  /** Business, advertising and job terms in English and Russian. */
  const OfferKeywords: seq<string> :=
    ["offer", "ad", "advertisement", "work", "collaboration", "proposal", "job",
     "предложение", "реклама", "работа", "сотрудничество", "вакансия"]

  /** The two languages for which an entity model is loaded. */
  predicate Supported(lang: string) {
    lang == "ru" || lang == "en"
  }

  /** `text.lower().split()`. */
  function Tokens(text: string): seq<string> {
    Split(LowerStr(text))
  }

  /** `any(word.lower() in keywords for word in words)`. */
  function AnyKeyword(words: seq<string>, keywords: seq<string>): (b: bool)
    ensures b <==> exists i :: 0 <= i < |words| && LowerStr(words[i]) in keywords
  {
    if words == [] then false
    else if LowerStr(words[0]) in keywords then true
    else
      var rest := AnyKeyword(words[1..], keywords);
      assert forall i :: 1 <= i < |words| ==> words[i] == words[1..][i - 1];
      rest
  }

  /** Some whitespace token of `text`, lower-cased, is exactly one of the
      keywords: matching ignores case and never looks inside a token. */
  ghost predicate MentionsKeyword(text: string, keywords: seq<string>) {
    exists t :: t in Split(text) && LowerStr(t) in keywords
  }

  /** `any(ent.label_ == 'PERSON' for ent in doc.ents)`. */
  predicate NamesPerson(labels: seq<string>) {
    "PERSON" in labels
  }

  lemma {:induction false} AnyTokenMeansMention(text: string, keywords: seq<string>)
    ensures AnyKeyword(Tokens(text), keywords) <==> MentionsKeyword(text, keywords)
  {
    var ts := Split(text);
    SplitLower(text);
    assert Tokens(text) == LowerAll(ts);
    if MentionsKeyword(text, keywords) {
      var t :| t in ts && LowerStr(t) in keywords;
      var i :| 0 <= i < |ts| && ts[i] == t;
      LowerStrIdempotent(t);
      assert LowerStr(Tokens(text)[i]) in keywords;
    }
    if AnyKeyword(Tokens(text), keywords) {
      var i :| 0 <= i < |Tokens(text)| && LowerStr(Tokens(text)[i]) in keywords;
      LowerStrIdempotent(ts[i]);
      assert ts[i] in ts && LowerStr(ts[i]) in keywords;
    }
  }

  /** `categorize_text`: an unsupported or undetected language gives
      gibberish; otherwise a person entity or a personal keyword gives
      personal, even when an offer keyword is present too; otherwise an
      offer keyword gives offers; otherwise gibberish. */
  function Categorize(text: string, lang: string, labels: seq<string>): (c: Category)
    ensures !Supported(lang) ==> c == Gibberish
    ensures c == Personal <==>
      Supported(lang) && (NamesPerson(labels) || MentionsKeyword(text, PersonalKeywords))
    ensures c == Offers <==>
      && Supported(lang)
      && !(NamesPerson(labels) || MentionsKeyword(text, PersonalKeywords))
      && MentionsKeyword(text, OfferKeywords)
  {
    AnyTokenMeansMention(text, PersonalKeywords);
    AnyTokenMeansMention(text, OfferKeywords);
    if !Supported(lang) then Gibberish
    else if NamesPerson(labels) || AnyKeyword(Tokens(text), PersonalKeywords) then Personal
    else if AnyKeyword(Tokens(text), OfferKeywords) then Offers
    else Gibberish
  }

  /** Two texts that agree once lower-cased are classified alike. */
  lemma CaseInsensitive(a: string, b: string, lang: string, labels: seq<string>)
    requires LowerStr(a) == LowerStr(b)
    ensures Categorize(a, lang, labels) == Categorize(b, lang, labels)
  {
    assert Tokens(a) == Tokens(b);
  }

  /** A word with whitespace or the edge of the text on each side is one of
      the tokens of the text. */
  lemma TokenInText(head: string, w: string, tail: string)
    requires w != [] && NoSpace(w)
    requires head == [] || IsSpace(head[|head| - 1])
    requires tail == [] || IsSpace(tail[0])
    ensures w in Split(head + w + tail)
  {
    if tail == [] {
      SplitWord(w);
      assert Split(w + tail) == [w] by { assert w + tail == w; }
    } else {
      assert w + tail == w + [tail[0]] + tail[1..];
      SplitAtSpace(w, tail[0], tail[1..]);
      SplitWord(w);
    }
    if head != [] {
      var init := head[..|head| - 1];
      assert head + w + tail == init + [head[|head| - 1]] + (w + tail);
      SplitAtSpace(init, head[|head| - 1], w + tail);
    } else {
      assert head + w + tail == w + tail;
    }
  }

  /** A personal keyword standing as a word anywhere in a text in a
      supported language (at either end, or with any whitespace around it)
      makes it personal, whatever else the text says: the personal check
      wins over the offer check. */
  lemma PersonalWordWins(head: string, w: string, tail: string, lang: string, labels: seq<string>)
    requires w != [] && NoSpace(w) && LowerStr(w) in PersonalKeywords && Supported(lang)
    requires head == [] || IsSpace(head[|head| - 1])
    requires tail == [] || IsSpace(tail[0])
    ensures Categorize(head + w + tail, lang, labels) == Personal
  {
    TokenInText(head, w, tail);
  }

  /** An English message that names the owner and proposes a job, such as
      "Hello, this is Vlad with a job offer", is personal. */
  lemma NamedProposalIsPersonal(head: string, tail: string, labels: seq<string>)
    requires tail == "with a job offer"
    ensures Categorize(head + " Vlad " + tail, "en", labels) == Personal
  {
    var name := "Vlad";
    var before, after := head + [' '], [' '] + tail;
    assert head + " Vlad " + tail == before + name + after;
    assert LowerStr(name) == "vlad";
    PersonalWordWins(before, name, after, "en", labels);
  }

  /** A text of one word, with no person named, is classified by whether
      that word, lower-cased, is a keyword. */
  lemma OneWordText(w: string, lang: string, labels: seq<string>)
    requires w != [] && NoSpace(w) && Supported(lang) && !NamesPerson(labels)
    ensures Categorize(w, lang, labels) ==
      if LowerStr(w) in PersonalKeywords then Personal
      else if LowerStr(w) in OfferKeywords then Offers
      else Gibberish
  {
    SplitWord(w);
    assert Split(w) == [w];
    assert forall t :: t in Split(w) <==> t == w;
  }

  /** A keyword is matched as a whole token only: "offers" is not "offer". */
  lemma GluedSuffixIsNotKeyword(text: string)
    requires text == "offers"
    ensures Categorize(text, "en", []) == Gibberish
  {
    OneWordText(text, "en", []);
    assert LowerStr(text) == "offers";
  }

  /** Punctuation stays part of the token: "job," is not "job". */
  lemma PunctuationIsPartOfToken(text: string)
    requires text == "job,"
    ensures Split(text) == [text]
    ensures Categorize(text, "en", []) == Gibberish
  {
    OneWordText(text, "en", []);
    SplitWord(text);
    assert LowerStr(text) == "job,";
  }

  /** Matching ignores case: "JOB" is "job". */
  lemma UpperCaseKeywordMatches(text: string)
    requires text == "JOB"
    ensures Categorize(text, "en", []) == Offers
  {
    OneWordText(text, "en", []);
    assert LowerStr(text) == "job";
  }

  /** The KELVIN SIGN lower-cases to "k", so "wor\U{212A}" is the offer
      keyword "work". */
  lemma KelvinSignMatches(text: string)
    requires text == "wor\U{212A}"
    ensures LowerStr(text) == "work"
    ensures Categorize(text, "en", []) == Offers
  {
    OneWordText(text, "en", []);
    assert LowerStr(text) == "work";
  }
}
