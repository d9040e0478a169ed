/** Topic routing of the two work queues (shared/broker.py: get_configured_queue and publish).

    A binding key matches a routing key word by word: `*` stands for one word, `#` for any
    number of words. */
module Routing {
  import opened Keys

  type Words = seq<string>

  /** The words between the dots of `s`; `word` is what has been read of the current one. */
  function SplitFrom(word: string, s: string): (words: Words)
    ensures |words| > 0
    decreases |s|
  {
    if s == "" then [word]
    else if s[0] == '.' then [word] + SplitFrom("", s[1..])
    else SplitFrom(word + [s[0]], s[1..])
  }

  function Split(s: string): Words { SplitFrom("", s) }

  function Join(words: Words): string
    requires words != []
  {
    if |words| == 1 then words[0] else words[0] + "." + Join(words[1..])
  }

  predicate Matches(binding: Words, key: Words)
    decreases |binding| + |key|
  {
    if binding == [] then key == []
    else if binding[0] == "#" then Matches(binding[1..], key) || (key != [] && Matches(binding, key[1..]))
    else key != [] && (binding[0] == "*" || binding[0] == key[0]) && Matches(binding[1..], key[1..])
  }

  predicate Routed(binding: string, key: string) { Matches(Split(binding), Split(key)) }

  const SCANNER := "task.*.scan"
  const IMAGES := "task.image.process"

  lemma {:induction false} SplitDotFree(word: string, w: string, rest: string)
    requires DotFree(w)
    ensures SplitFrom(word, w + rest) == SplitFrom(word + w, rest)
    decreases |w|
  {
    if w == "" {
      assert w + rest == rest && word + w == word;
    } else {
      assert (w + rest)[1..] == w[1..] + rest;
      SplitDotFree(word + [w[0]], w[1..], rest);
      assert word + [w[0]] + w[1..] == word + w;
    }
  }

  lemma {:induction false} SplitJoin(words: Words)
    requires words != [] && forall k :: 0 <= k < |words| ==> DotFree(words[k])
    ensures Split(Join(words)) == words
  {
    var w := words[0];
    if |words| == 1 {
      assert words == [w] && w + "" == w && "" + w == w;
      SplitDotFree("", w, "");
    } else {
      var rest := Join(words[1..]);
      SplitJoin(words[1..]);
      assert Join(words) == w + ("." + rest);
      SplitDotFree("", w, "." + rest);
      assert "" + w == w && ("." + rest)[1..] == rest;
    }
  }

  lemma {:induction false} SplitKeeps(word: string, s: string)
    requires DotFree(word)
    ensures Join(SplitFrom(word, s)) == word + s
    ensures forall k :: 0 <= k < |SplitFrom(word, s)| ==> DotFree(SplitFrom(word, s)[k])
    decreases |s|
  {
    if s == "" {
    } else if s[0] == '.' {
      SplitKeeps("", s[1..]);
      var rest := SplitFrom("", s[1..]);
      assert ([word] + rest)[1..] == rest;
      assert word + "." + s[1..] == word + s;
    } else {
      SplitKeeps(word + [s[0]], s[1..]);
      assert word + [s[0]] + s[1..] == word + s;
    }
  }

  /** Without `#` a binding matches word for word. */
  lemma {:induction false} MatchesWordwise(binding: Words, key: Words)
    requires "#" !in binding
    ensures Matches(binding, key) <==>
            |binding| == |key| && forall k :: 0 <= k < |key| ==> binding[k] == "*" || binding[k] == key[k]
  {
    if binding != [] && key != [] {
      MatchesWordwise(binding[1..], key[1..]);
      if Matches(binding, key) {
        forall k | 0 <= k < |key| ensures binding[k] == "*" || binding[k] == key[k] {
          if k > 0 { assert binding[k] == binding[1..][k - 1] && key[k] == key[1..][k - 1]; }
        }
      }
    }
  }

  /** Three words and the key they make. */
  lemma ThreeWords(a: string, b: string, c: string)
    requires DotFree(a) && DotFree(b) && DotFree(c)
    ensures Split(a + "." + b + "." + c) == [a, b, c]
  {
    SplitJoin([a, b, c]);
    assert [a, b, c][1..] == [b, c] && [b, c][1..] == [c];
    assert Join([b, c]) == b + "." + c;
    assert Join([a, b, c]) == a + "." + b + "." + c;
  }

  lemma JoinThree(words: Words)
    requires |words| == 3
    ensures Join(words) == words[0] + "." + words[1] + "." + words[2]
  {
    assert words[1..][1..] == [words[2]];
    assert Join(words[1..]) == words[1] + "." + words[2];
    var a, b, c := words[0], words[1], words[2];
    assert a + "." + (b + "." + c) == a + "." + b + "." + c;
  }

  lemma ScannerWord(key: string) returns (w: string)
    requires Routed(SCANNER, key)
    ensures DotFree(w) && key == "task." + w + ".scan"
  {
    hide SplitFrom, Matches, Join, DotFree;
    assert DotFree("task") && DotFree("*") && DotFree("scan") by { WordsOfTheBinding(); }
    ThreeWords("task", "*", "scan");
    assert "task" + "." + "*" + "." + "scan" == SCANNER;
    SplitKeeps("", key) by { WordsOfTheBinding(); }
    var words := Split(key);
    MatchesWordwise(["task", "*", "scan"], words);
    JoinThree(words);
    w := words[1];
    assert words[0] == "task" && words[2] == "scan";
    Spelled(key, w);
  }

  lemma Spelled(key: string, w: string)
    ensures "" + key == key && "task" + "." + w + "." + "scan" == "task." + w + ".scan"
  {
  }

  lemma WordsOfTheBinding()
    ensures DotFree("") && DotFree("task") && DotFree("*") && DotFree("scan")
  {
  }

  lemma ScannerTakes(w: string)
    requires DotFree(w)
    ensures Routed(SCANNER, "task." + w + ".scan")
  {
    hide SplitFrom, Matches, Join, DotFree;
    WordsOfTheBinding();
    ThreeWords("task", "*", "scan");
    ThreeWords("task", w, "scan");
    Spelled("", w);
    assert "task" + "." + "*" + "." + "scan" == SCANNER;
    MatchesWordwise(["task", "*", "scan"], ["task", w, "scan"]);
  }

  /** The scanner's queue gets exactly the keys with one word between `task` and `scan`. */
  lemma ScannerKeys(key: string)
    ensures Routed(SCANNER, key) <==> exists w :: DotFree(w) && key == "task." + w + ".scan"
  {
    hide Routed;
    if Routed(SCANNER, key) {
      var w := ScannerWord(key);
    }
    forall w | DotFree(w) && key == "task." + w + ".scan" ensures Routed(SCANNER, key) {
      ScannerTakes(w);
    }
  }

  /** The image worker's queue gets one key only. */
  lemma ImageKeys(key: string)
    ensures Routed(IMAGES, key) <==> key == "task.image.process"
  {
    ThreeWords("task", "image", "process");
    assert "task" + "." + "image" + "." + "process" == IMAGES;
    SplitKeeps("", key);
    var words := Split(key);
    MatchesWordwise(["task", "image", "process"], words);
    hide SplitFrom, Matches, Join;
    if Routed(IMAGES, key) {
      JoinThree(words);
    }
  }

  /** Every upload reaches the scanner and nobody else, whatever its type; and what the scanner
      forwards reaches the image worker and nobody else. */
  lemma QueuesAreSeparate(ext: string)
    requires ext in {".pdf", ".png", ".jpeg", ".ppt", ".mkv", ".txt"}
    ensures Routed(SCANNER, "task" + ext + ".scan") && !Routed(IMAGES, "task" + ext + ".scan")
    ensures Routed(IMAGES, "task.image.process") && !Routed(SCANNER, "task.image.process")
  {
    var key := "task" + ext + ".scan";
    ScannerKeys(key);
    ImageKeys(key);
    ImageKeys(IMAGES);
    ScannerKeys(IMAGES);
    hide Routed, Split;
    assert DotFree(ext[1..]) && key == "task." + ext[1..] + ".scan";
    assert key[|key| - 1] == 'n';
    forall w ensures IMAGES != "task." + w + ".scan" {
      assert ("task." + w + ".scan")[|w| + 9] == 'n';
    }
  }
}
