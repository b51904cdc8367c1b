/**
 * commands/imageScraper.js: turning a chat message into an image-search URL
 * (stop-word removal, `+`-joined terms) and choosing one result URL from the
 * images the results page shows. The browser session itself is not modelled:
 * the list of image sources it yields is an input.
 */
module ImageScraper {
  import opened Text

  // The `stopwords` array (imageScraper.js:4), in its order, in parts of eleven.
  const StopwordsPart1: seq<string> := ["cortex", "image", "show", "generate", "i", "me", "my", "myself", "we", "our", "ours"]
  const StopwordsPart2: seq<string> := ["ourselves", "you", "your", "yours", "yourself", "yourselves", "he", "him", "his", "himself", "she"]
  const StopwordsPart3: seq<string> := ["her", "hers", "herself", "it", "its", "itself", "they", "them", "their", "theirs", "themselves"]
  const StopwordsPart4: seq<string> := ["what", "which", "who", "whom", "this", "that", "these", "those", "am", "is", "are"]
  const StopwordsPart5: seq<string> := ["was", "were", "be", "been", "being", "have", "has", "had", "having", "do", "does"]
  const StopwordsPart6: seq<string> := ["did", "doing", "a", "an", "the", "and", "but", "if", "or", "because", "as"]
  const StopwordsPart7: seq<string> := ["until", "while", "of", "at", "by", "for", "with", "about", "against", "between", "into"]
  const StopwordsPart8: seq<string> := ["through", "during", "before", "after", "above", "below", "to", "from", "up", "down", "in"]
  const StopwordsPart9: seq<string> := ["out", "on", "off", "over", "under", "again", "further", "then", "once", "here", "there"]
  const StopwordsPart10: seq<string> := ["when", "where", "why", "how", "all", "any", "both", "each", "few", "more", "most"]
  const StopwordsPart11: seq<string> := ["other", "some", "such", "no", "nor", "not", "only", "own", "same", "so", "than"]
  const StopwordsPart12: seq<string> := ["too", "very", "s", "t", "can", "will", "just", "don", "should", "now"]

  const Stopwords: seq<string> :=
    StopwordsPart1 + StopwordsPart2 + StopwordsPart3 + StopwordsPart4 + StopwordsPart5 + StopwordsPart6 + StopwordsPart7 + StopwordsPart8 + StopwordsPart9 + StopwordsPart10 + StopwordsPart11 + StopwordsPart12

  /**
   * `stopwords.includes(w)`: `w` is one of the listed stop words. The match is
   * exact and case-sensitive.
   */
  predicate IsStopword(w: string)
  {
    w in Stopwords
  }

  /** Neither the capitalised wake word nor the empty word is listed. */
  lemma UnlistedWords()
    ensures !IsStopword("Cortex") && !IsStopword("")
  {
    UnlistedInParts1();
    UnlistedInParts2();
    UnlistedInParts3();
  }

  lemma UnlistedInParts1()
    ensures "Cortex" !in StopwordsPart1 && "" !in StopwordsPart1
            && "Cortex" !in StopwordsPart2 && "" !in StopwordsPart2
            && "Cortex" !in StopwordsPart3 && "" !in StopwordsPart3
            && "Cortex" !in StopwordsPart4 && "" !in StopwordsPart4
  {
    assert "Cortex" !in StopwordsPart1 && "" !in StopwordsPart1;
    assert "Cortex" !in StopwordsPart2 && "" !in StopwordsPart2;
    assert "Cortex" !in StopwordsPart3 && "" !in StopwordsPart3;
    assert "Cortex" !in StopwordsPart4 && "" !in StopwordsPart4;
  }

  lemma UnlistedInParts2()
    ensures "Cortex" !in StopwordsPart5 && "" !in StopwordsPart5
            && "Cortex" !in StopwordsPart6 && "" !in StopwordsPart6
            && "Cortex" !in StopwordsPart7 && "" !in StopwordsPart7
            && "Cortex" !in StopwordsPart8 && "" !in StopwordsPart8
  {
    assert "Cortex" !in StopwordsPart5 && "" !in StopwordsPart5;
    assert "Cortex" !in StopwordsPart6 && "" !in StopwordsPart6;
    assert "Cortex" !in StopwordsPart7 && "" !in StopwordsPart7;
    assert "Cortex" !in StopwordsPart8 && "" !in StopwordsPart8;
  }

  lemma UnlistedInParts3()
    ensures "Cortex" !in StopwordsPart9 && "" !in StopwordsPart9
            && "Cortex" !in StopwordsPart10 && "" !in StopwordsPart10
            && "Cortex" !in StopwordsPart11 && "" !in StopwordsPart11
            && "Cortex" !in StopwordsPart12 && "" !in StopwordsPart12
  {
    assert "Cortex" !in StopwordsPart9 && "" !in StopwordsPart9;
    assert "Cortex" !in StopwordsPart10 && "" !in StopwordsPart10;
    assert "Cortex" !in StopwordsPart11 && "" !in StopwordsPart11;
    assert "Cortex" !in StopwordsPart12 && "" !in StopwordsPart12;
  }

  /**
   * The cleaned words kept from `words`, in order: dots removed from each word,
   * then every word listed in `stopwords` dropped. The list is a parameter so
   * that the facts below hold for any list; the program's own is `Stopwords`.
   */
  function KeptWords(words: seq<string>, stopwords: seq<string>): (kept: seq<string>)
    ensures |kept| <= |words|
    ensures forall k :: 0 <= k < |kept| ==> kept[k] !in stopwords && '.' !in kept[k]
    ensures (forall k :: 0 <= k < |words| ==> ' ' !in words[k]) ==>
              forall k :: 0 <= k < |kept| ==> ' ' !in kept[k]
    decreases |words|
  {
    if words == [] then []
    else
      var front := KeptWords(words[..|words| - 1], stopwords);
      var clean := RemoveChar(words[|words| - 1], '.');
      assert (' ' in clean) ==> (' ' in words[|words| - 1]) by {
        if ' ' in clean {
          var j :| 0 <= j < |clean| && clean[j] == ' ';
        }
      }
      front + (if clean in stopwords then [] else [clean])
  }

  /** Each word with its dots removed. */
  function Undotted(words: seq<string>): (r: seq<string>)
    ensures |r| == |words|
    ensures forall k :: 0 <= k < |words| ==> r[k] == RemoveChar(words[k], '.')
    decreases |words|
  {
    if words == [] then []
    else Undotted(words[..|words| - 1]) + [RemoveChar(words[|words| - 1], '.')]
  }

  /** The kept words are the dot-stripped words with some left out, in their original order. */
  lemma {:induction false} KeptWordsSubsequence(words: seq<string>, stopwords: seq<string>)
    ensures IsSubsequence(KeptWords(words, stopwords), Undotted(words))
    decreases |words|
  {
    if words != [] {
      var front := words[..|words| - 1];
      var clean := RemoveChar(words[|words| - 1], '.');
      KeptWordsSubsequence(front, stopwords);
      assert Undotted(words) == Undotted(front) + [clean];
      SubsequenceSnoc(KeptWords(front, stopwords), Undotted(front), clean);
      if clean in stopwords {
        assert KeptWords(words, stopwords) == KeptWords(front, stopwords);
      } else {
        assert KeptWords(words, stopwords) == KeptWords(front, stopwords) + [clean];
      }
    }
  }

  /** One more word: it is kept, dot-stripped, unless it is listed. */
  lemma KeptWordsStep(words: seq<string>, i: nat, stopwords: seq<string>)
    requires i < |words|
    ensures var clean := RemoveChar(words[i], '.');
      KeptWords(words[..i + 1], stopwords)
        == KeptWords(words[..i], stopwords) + (if clean in stopwords then [] else [clean])
  {
    assert words[..i + 1][..i] == words[..i];
  }

  /** The query `remove_stopwords` returns: the kept words joined by single spaces. */
  function CleanQuery(text: string): string
  {
    Join(KeptWords(Split(text, ' '), Stopwords), " ")
  }

  /** `remove_stopwords` (imageScraper.js:6-16). */
  method RemoveStopwords(text: string) returns (query: string)
    ensures query == CleanQuery(text)
  {
    var words := Split(text, ' ');
    var res: seq<string> := [];
    var i := 0;
    while i < |words|
      invariant 0 <= i <= |words|
      invariant res == KeptWords(words[..i], Stopwords)
    {
      var wordClean := Join(Split(words[i], '.'), "");
      JoinSplitRemove(words[i], '.');
      KeptWordsStep(words, i, Stopwords);
      if !IsStopword(wordClean) {
        res := res + [wordClean];
      }
      i := i + 1;
    }
    assert words[..|words|] == words;
    query := Join(res, " ");
  }

  /**
   * Every space-separated word of a cleaned query is free of dots and is not a
   * stop word (an empty query splits into the one empty word, which is not one).
   */
  lemma CleanQueryWords(text: string)
    ensures var words := Split(CleanQuery(text), ' ');
      forall k :: 0 <= k < |words| ==> !IsStopword(words[k]) && '.' !in words[k]
  {
    var kept := KeptWords(Split(text, ' '), Stopwords);
    if kept == [] {
      assert CleanQuery(text) == "";
      UnlistedWords();
    } else {
      SplitJoin(kept, ' ');
    }
  }

  /** Cleaning a cleaned query changes nothing. */
  lemma {:induction false} CleanQueryIdempotent(text: string)
    ensures CleanQuery(CleanQuery(text)) == CleanQuery(text)
  {
    var kept := KeptWords(Split(text, ' '), Stopwords);
    if kept == [] {
      assert CleanQuery(text) == "";
      UnlistedWords();
      assert Split("", ' ') == [""];
      assert KeptWords([""], Stopwords) == KeptWords([""][..0], Stopwords) + [""];
    } else {
      SplitJoin(kept, ' ');
      KeptWordsOfClean(kept, Stopwords);
    }
  }

  /** Words that are already clean are all kept unchanged. */
  lemma {:induction false} KeptWordsOfClean(words: seq<string>, stopwords: seq<string>)
    requires forall k :: 0 <= k < |words| ==> words[k] !in stopwords && '.' !in words[k]
    ensures KeptWords(words, stopwords) == words
    decreases |words|
  {
    if words != [] {
      var n := |words| - 1;
      KeptWordsOfClean(words[..n], stopwords);
      RemoveAbsentChar(words[n], '.');
      KeptWordsStep(words, n, stopwords);
      assert words[..n] + [words[n]] == words;
    }
  }

  /** Only the lower-case wake word is a stop word. */
  lemma WakeWordCase()
    ensures IsStopword("cortex") && !IsStopword("Cortex")
  {
    assert Stopwords[0] == "cortex";
    UnlistedWords();
  }

  const SearchPrefix := "https://www.google.com/search?hl=en&tbm=isch&q="

  /** The results-page URL for a message: the cleaned query with its spaces turned into `+`. */
  function SearchUrl(text: string): (url: string)
    ensures StartsWith(url, SearchPrefix)
    ensures url[|SearchPrefix|..] == ReplaceChar(CleanQuery(text), ' ', '+')
    ensures ' ' !in url[|SearchPrefix|..]
  {
    var query := CleanQuery(text);
    JoinSplitReplace(query, ' ', '+');
    var terms := Join(Split(query, ' '), "+");
    AppendStartsWith(SearchPrefix, terms);
    SearchPrefix + terms
  }

  /** `imageUrls.filter(url => url.startsWith('https'))`. */
  function HttpsOnly(urls: seq<string>): (r: seq<string>)
    ensures |r| <= |urls|
    ensures forall k :: 0 <= k < |r| ==> StartsWith(r[k], "https") && r[k] in urls
    ensures forall k :: 0 <= k < |urls| && StartsWith(urls[k], "https") ==> urls[k] in r
    decreases |urls|
  {
    if urls == [] then []
    else (if StartsWith(urls[0], "https") then [urls[0]] else []) + HttpsOnly(urls[1..])
  }

  /**
   * The filter keeps the order of the URLs and every copy of an `https` one,
   * so the position `SelectImage` picks is a position among them in page order.
   */
  lemma {:induction false} HttpsOnlyKeepsOrder(urls: seq<string>)
    ensures IsSubsequence(HttpsOnly(urls), urls)
    ensures forall u :: StartsWith(u, "https") ==> multiset(HttpsOnly(urls))[u] == multiset(urls)[u]
    decreases |urls|
  {
    if urls != [] {
      var rest := HttpsOnly(urls[1..]);
      HttpsOnlyKeepsOrder(urls[1..]);
      assert urls == [urls[0]] + urls[1..];
      assert multiset(urls) == multiset([urls[0]]) + multiset(urls[1..]);
      if StartsWith(urls[0], "https") {
        assert HttpsOnly(urls) == [urls[0]] + rest;
        assert ([urls[0]] + rest)[1..] == rest;
        assert multiset([urls[0]] + rest) == multiset([urls[0]]) + multiset(rest);
      } else {
        assert HttpsOnly(urls) == rest;
      }
    }
  }

  const FallbackImage := "https://lh6.googleusercontent.com/" + "Bu-pRqU_tWZV7O3rJ5nV1P6NjqFnnAs8kVLC5VGz_Kf7ws0nDUXoGTc7pP87tyUCfu8VyXi0YviIm7CxAISDr2lJSwWwXQxxz98qxVfMcKTJfLPqbcfhn-QEeOowjrlwX1LYDFJN"

  /**
   * The URL chosen for a random index in 0..9: the first three HTTPS images
   * are skipped, the one at the index after them is taken, and the fixed
   * fallback image is used when there is none.
   */
  function SelectImage(urls: seq<string>, index: nat): (url: string)
    requires index < 10
    ensures StartsWith(url, "https")
    ensures index + 3 < |HttpsOnly(urls)| ==> url == HttpsOnly(urls)[index + 3] && url in urls
    ensures index + 3 >= |HttpsOnly(urls)| ==> url == FallbackImage
  {
    var https := HttpsOnly(urls);
    var trimmed := if |https| >= 3 then https[3..] else [];
    if index < |trimmed| && trimmed[index] != "" then trimmed[index]
    else
      assert StartsWith(FallbackImage, "https") by {
        assert FallbackImage[..5] == "https://lh6.googleusercontent.com/"[..5];
      }
      FallbackImage
  }
}
