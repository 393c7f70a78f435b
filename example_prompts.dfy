/**
 * The eight example prompts the translator component offers
 * (frontend/src/components/PythonTranslator.js:19-26), and which of them
 * pick a canned translation: only the second, the fifth and the eighth
 * contain a trigger; the other five get the fallback stub.
 *
 * A prompt misses a trigger when the trigger holds a letter the lowered
 * prompt lacks (MissingChar) or three adjacent characters that never stand
 * together in it (MissingTrigram). Each prompt is written as a sum of short
 * pieces. The facts about one literal piece are proved on their own, with
 * the literal passed as a parameter; the lemmas that put a prompt together
 * (the MissesTrigram and ...From ones) see the pieces only through
 * those facts, which keeps every proof small.
 */
module Examples {
  import opened Wrappers
  import opened Text
  import opened Translator

  const SortsDictionariesExample: string := "Create a " + "function " + "that sorts " + "a list of " + "dictionaries " + "by a " + "specific key"
  const SecondLargestExample: string := "Write a " + "function to " + "find the " + "second largest number" + " in a list"
  const CalculatorExample: string := "Create a " + "class for a " + "simple " + "calculator " + "with basic " + "operations"
  const CsvToJsonExample: string := "Generate " + "code to " + "read a CSV " + "file and " + "convert it " + "to JSON"
  const PalindromeExample: string := "Write a " + "function " + "that checks " + "if a string " + "is a " + "palindrome"
  const DecoratorExample: string := "Create a " + "decorator " + "that " + "measures " + "execution " + "time of " + "functions"
  const MergeListsExample: string := "Write a " + "function to " + "merge two " + "sorted lists"
  const WebScraperExample: string := "Generate " + "code for a " + "simple " + "web scraper" + " using " + "requests"

  /** examplePrompts, in the order the component lists them. */
  const ExamplePrompts: seq<string> := [
    SortsDictionariesExample,
    SecondLargestExample,
    CalculatorExample,
    CsvToJsonExample,
    PalindromeExample,
    DecoratorExample,
    MergeListsExample,
    WebScraperExample
  ]

  /** What the component does with each example prompt: the index of the
      mock entry it picks, or None for the fallback stub. */
  const ExampleOutcomes: seq<Option<nat>> := [None, Some(1), None, None, Some(4), None, None, Some(7)]

  /** The triggers are already lower case, so toLowerCase leaves them alone. */
  lemma FirstTriggersLowerCase()
    ensures forall k :: 0 <= k < 4 ==> Lower(MockTriggers[k]) == MockTriggers[k]
  {
    assert Lower(MockTriggers[0]) == MockTriggers[0];
    assert Lower(MockTriggers[1]) == MockTriggers[1];
    assert Lower(MockTriggers[2]) == MockTriggers[2];
    assert Lower(MockTriggers[3]) == MockTriggers[3];
  }

  lemma LastTriggersLowerCase()
    ensures forall k :: 4 <= k < 8 ==> Lower(MockTriggers[k]) == MockTriggers[k]
  {
    assert Lower(MockTriggers[4]) == MockTriggers[4];
    assert Lower(MockTriggers[5]) == MockTriggers[5];
    assert Lower(MockTriggers[6]) == MockTriggers[6];
    assert Lower(MockTriggers[7]) == MockTriggers[7];
  }

  lemma TriggersLowerCase()
    ensures forall k :: 0 <= k < |MockTriggers| ==> Lower(MockTriggers[k]) == MockTriggers[k]
  {
    FirstTriggersLowerCase();
    LastTriggersLowerCase();
  }

  /** Neither seam of the join of a and b (two characters of a and one of
      b, or one of a and two of b) spells the trigram x y z. */
  predicate SeamFree(a: string, b: string, x: char, y: char, z: char)
  {
    |a| >= 2 && |b| >= 2 &&
    !(a[|a| - 2] == x && a[|a| - 1] == y && b[0] == z) &&
    !(a[|a| - 1] == x && b[0] == y && b[1] == z)
  }

  /** A text joined from pieces that each lack the trigram p[j..j + 3], with
      no seam spelling it, does not contain p. One lemma per number of
      pieces the prompts are cut into. */
  lemma {:induction false} MissesTrigram4(l0: string, l1: string, l2: string, l3: string, x: char, y: char, z: char, p: string, j: nat)
    requires j + 3 <= |p| && p[j] == x && p[j + 1] == y && p[j + 2] == z
    requires LacksTrigram(l0, x, y, z) && LacksTrigram(l1, x, y, z) && LacksTrigram(l2, x, y, z) && LacksTrigram(l3, x, y, z)
    requires SeamFree(l0, l1, x, y, z) && SeamFree(l1, l2, x, y, z) && SeamFree(l2, l3, x, y, z)
    ensures !Contains(l0 + l1 + l2 + l3, p)
  {
    LacksTrigramAppend(l0, l1, x, y, z);
    LacksTrigramExtend(l0, l1, l2, x, y, z);
    LacksTrigramExtend(l0 + l1, l2, l3, x, y, z);
    MissingTrigram(l0 + l1 + l2 + l3, p, j);
  }

  lemma {:induction false} MissesTrigram5(l0: string, l1: string, l2: string, l3: string, l4: string, x: char, y: char, z: char, p: string, j: nat)
    requires j + 3 <= |p| && p[j] == x && p[j + 1] == y && p[j + 2] == z
    requires LacksTrigram(l0, x, y, z) && LacksTrigram(l1, x, y, z) && LacksTrigram(l2, x, y, z) && LacksTrigram(l3, x, y, z) && LacksTrigram(l4, x, y, z)
    requires SeamFree(l0, l1, x, y, z) && SeamFree(l1, l2, x, y, z) && SeamFree(l2, l3, x, y, z) && SeamFree(l3, l4, x, y, z)
    ensures !Contains(l0 + l1 + l2 + l3 + l4, p)
  {
    LacksTrigramAppend(l0, l1, x, y, z);
    LacksTrigramExtend(l0, l1, l2, x, y, z);
    LacksTrigramExtend(l0 + l1, l2, l3, x, y, z);
    LacksTrigramExtend(l0 + l1 + l2, l3, l4, x, y, z);
    MissingTrigram(l0 + l1 + l2 + l3 + l4, p, j);
  }

  lemma {:induction false} MissesTrigram6(l0: string, l1: string, l2: string, l3: string, l4: string, l5: string, x: char, y: char, z: char, p: string, j: nat)
    requires j + 3 <= |p| && p[j] == x && p[j + 1] == y && p[j + 2] == z
    requires LacksTrigram(l0, x, y, z) && LacksTrigram(l1, x, y, z) && LacksTrigram(l2, x, y, z) && LacksTrigram(l3, x, y, z) && LacksTrigram(l4, x, y, z) && LacksTrigram(l5, x, y, z)
    requires SeamFree(l0, l1, x, y, z) && SeamFree(l1, l2, x, y, z) && SeamFree(l2, l3, x, y, z) && SeamFree(l3, l4, x, y, z) && SeamFree(l4, l5, x, y, z)
    ensures !Contains(l0 + l1 + l2 + l3 + l4 + l5, p)
  {
    LacksTrigramAppend(l0, l1, x, y, z);
    LacksTrigramExtend(l0, l1, l2, x, y, z);
    LacksTrigramExtend(l0 + l1, l2, l3, x, y, z);
    LacksTrigramExtend(l0 + l1 + l2, l3, l4, x, y, z);
    LacksTrigramExtend(l0 + l1 + l2 + l3, l4, l5, x, y, z);
    MissingTrigram(l0 + l1 + l2 + l3 + l4 + l5, p, j);
  }

  lemma {:induction false} MissesTrigram7(l0: string, l1: string, l2: string, l3: string, l4: string, l5: string, l6: string, x: char, y: char, z: char, p: string, j: nat)
    requires j + 3 <= |p| && p[j] == x && p[j + 1] == y && p[j + 2] == z
    requires LacksTrigram(l0, x, y, z) && LacksTrigram(l1, x, y, z) && LacksTrigram(l2, x, y, z) && LacksTrigram(l3, x, y, z) && LacksTrigram(l4, x, y, z) && LacksTrigram(l5, x, y, z) && LacksTrigram(l6, x, y, z)
    requires SeamFree(l0, l1, x, y, z) && SeamFree(l1, l2, x, y, z) && SeamFree(l2, l3, x, y, z) && SeamFree(l3, l4, x, y, z) && SeamFree(l4, l5, x, y, z) && SeamFree(l5, l6, x, y, z)
    ensures !Contains(l0 + l1 + l2 + l3 + l4 + l5 + l6, p)
  {
    LacksTrigramAppend(l0, l1, x, y, z);
    LacksTrigramExtend(l0, l1, l2, x, y, z);
    LacksTrigramExtend(l0 + l1, l2, l3, x, y, z);
    LacksTrigramExtend(l0 + l1 + l2, l3, l4, x, y, z);
    LacksTrigramExtend(l0 + l1 + l2 + l3, l4, l5, x, y, z);
    LacksTrigramExtend(l0 + l1 + l2 + l3 + l4, l5, l6, x, y, z);
    MissingTrigram(l0 + l1 + l2 + l3 + l4 + l5 + l6, p, j);
  }

  // Create a function that sorts a list of dictionaries by a specific key

  lemma SortsDictionariesPiece0(p: string, l: string)
    requires p == "Create a " && l == "create a "
    ensures Lower(p) == l
  {
  }

  lemma SortsDictionariesPiece1(p: string, l: string)
    requires p == "function " && l == "function "
    ensures Lower(p) == l
  {
  }

  lemma SortsDictionariesPiece2(p: string, l: string)
    requires p == "that sorts " && l == "that sorts "
    ensures Lower(p) == l
  {
  }

  lemma SortsDictionariesPiece3(p: string, l: string)
    requires p == "a list of " && l == "a list of "
    ensures Lower(p) == l
  {
  }

  lemma SortsDictionariesPiece4(p: string, l: string)
    requires p == "dictionaries " && l == "dictionaries "
    ensures Lower(p) == l
  {
  }

  lemma SortsDictionariesPiece5(p: string, l: string)
    requires p == "by a " && l == "by a "
    ensures Lower(p) == l
  {
  }

  lemma SortsDictionariesPiece6(p: string, l: string)
    requires p == "specific key" && l == "specific key"
    ensures Lower(p) == l
  {
  }

  lemma SortsDictionariesLowered()
    ensures Lower(SortsDictionariesExample) == "create a " + "function " + "that sorts " + "a list of " + "dictionaries " + "by a " + "specific key"
  {
    SortsDictionariesPiece0("Create a ", "create a ");
    SortsDictionariesPiece1("function ", "function ");
    SortsDictionariesPiece2("that sorts ", "that sorts ");
    SortsDictionariesPiece3("a list of ", "a list of ");
    SortsDictionariesPiece4("dictionaries ", "dictionaries ");
    SortsDictionariesPiece5("by a ", "by a ");
    SortsDictionariesPiece6("specific key", "specific key");
    LowerAppend("Create a ", "function ");
    LowerAppend("Create a " + "function ", "that sorts ");
    LowerAppend("Create a " + "function " + "that sorts ", "a list of ");
    LowerAppend("Create a " + "function " + "that sorts " + "a list of ", "dictionaries ");
    LowerAppend("Create a " + "function " + "that sorts " + "a list of " + "dictionaries ", "by a ");
    LowerAppend("Create a " + "function " + "that sorts " + "a list of " + "dictionaries " + "by a ", "specific key");
  }

  lemma SortsDictionariesPiece0Facts(l: string)
    requires l == "create a "
    ensures |l| >= 2 && l[|l| - 2] == 'a' && l[|l| - 1] == ' '
    ensures 'j' !in l && 'm' !in l && 'w' !in l
    ensures LacksTrigram(l, 'c', 'a', 'l') && LacksTrigram(l, 'r', 't', ' ')
  {
  }

  lemma SortsDictionariesPiece1Facts(l: string)
    requires l == "function "
    ensures |l| >= 2 && l[0] == 'f' && l[1] == 'u' && l[|l| - 2] == 'n' && l[|l| - 1] == ' '
    ensures 'j' !in l && 'm' !in l && 'w' !in l
    ensures LacksTrigram(l, 'c', 'a', 'l') && LacksTrigram(l, 'r', 't', ' ')
  {
  }

  lemma SortsDictionariesPiece2Facts(l: string)
    requires l == "that sorts "
    ensures |l| >= 2 && l[0] == 't' && l[1] == 'h' && l[|l| - 2] == 's' && l[|l| - 1] == ' '
    ensures 'j' !in l && 'm' !in l && 'w' !in l
    ensures LacksTrigram(l, 'c', 'a', 'l') && LacksTrigram(l, 'r', 't', ' ')
  {
  }

  lemma SortsDictionariesPiece3Facts(l: string)
    requires l == "a list of "
    ensures |l| >= 2 && l[0] == 'a' && l[1] == ' ' && l[|l| - 2] == 'f' && l[|l| - 1] == ' '
    ensures 'j' !in l && 'm' !in l && 'w' !in l
    ensures LacksTrigram(l, 'c', 'a', 'l') && LacksTrigram(l, 'r', 't', ' ')
  {
  }

  lemma SortsDictionariesPiece4Facts(l: string)
    requires l == "dictionaries "
    ensures |l| >= 2 && l[0] == 'd' && l[1] == 'i' && l[|l| - 2] == 's' && l[|l| - 1] == ' '
    ensures 'j' !in l && 'm' !in l && 'w' !in l
    ensures LacksTrigram(l, 'c', 'a', 'l') && LacksTrigram(l, 'r', 't', ' ')
  {
  }

  lemma SortsDictionariesPiece5Facts(l: string)
    requires l == "by a "
    ensures |l| >= 2 && l[0] == 'b' && l[1] == 'y' && l[|l| - 2] == 'a' && l[|l| - 1] == ' '
    ensures 'j' !in l && 'm' !in l && 'w' !in l
    ensures LacksTrigram(l, 'c', 'a', 'l') && LacksTrigram(l, 'r', 't', ' ')
  {
  }

  lemma SortsDictionariesPiece6Facts(l: string)
    requires l == "specific key"
    ensures |l| >= 2 && l[0] == 's' && l[1] == 'p'
    ensures 'j' !in l && 'm' !in l && 'w' !in l
    ensures LacksTrigram(l, 'c', 'a', 'l') && LacksTrigram(l, 'r', 't', ' ')
  {
  }

  lemma {:induction false} SortsDictionariesMissesByLetterFrom(l0: string, l1: string, l2: string, l3: string, l4: string, l5: string, l6: string)
    requires 'j' !in l0 && 'm' !in l0 && 'w' !in l0
    requires 'j' !in l1 && 'm' !in l1 && 'w' !in l1
    requires 'j' !in l2 && 'm' !in l2 && 'w' !in l2
    requires 'j' !in l3 && 'm' !in l3 && 'w' !in l3
    requires 'j' !in l4 && 'm' !in l4 && 'w' !in l4
    requires 'j' !in l5 && 'm' !in l5 && 'w' !in l5
    requires 'j' !in l6 && 'm' !in l6 && 'w' !in l6
    ensures !Contains(l0 + l1 + l2 + l3 + l4 + l5 + l6, MockTriggers[1])
    ensures !Contains(l0 + l1 + l2 + l3 + l4 + l5 + l6, MockTriggers[3])
    ensures !Contains(l0 + l1 + l2 + l3 + l4 + l5 + l6, MockTriggers[4])
    ensures !Contains(l0 + l1 + l2 + l3 + l4 + l5 + l6, MockTriggers[5])
    ensures !Contains(l0 + l1 + l2 + l3 + l4 + l5 + l6, MockTriggers[6])
    ensures !Contains(l0 + l1 + l2 + l3 + l4 + l5 + l6, MockTriggers[7])
  {
    MissingChar(l0 + l1 + l2 + l3 + l4 + l5 + l6, MockTriggers[1], 17);  // 'm'
    MissingChar(l0 + l1 + l2 + l3 + l4 + l5 + l6, MockTriggers[3], 7);  // 'j'
    MissingChar(l0 + l1 + l2 + l3 + l4 + l5 + l6, MockTriggers[4], 8);  // 'm'
    MissingChar(l0 + l1 + l2 + l3 + l4 + l5 + l6, MockTriggers[5], 12);  // 'm'
    MissingChar(l0 + l1 + l2 + l3 + l4 + l5 + l6, MockTriggers[6], 0);  // 'm'
    MissingChar(l0 + l1 + l2 + l3 + l4 + l5 + l6, MockTriggers[7], 0);  // 'w'
  }

  lemma {:induction false} SortsDictionariesMissesByTrigramFrom(l0: string, l1: string, l2: string, l3: string, l4: string, l5: string, l6: string)
    requires |l0| >= 2 && l0[|l0| - 2] == 'a' && l0[|l0| - 1] == ' ' && LacksTrigram(l0, 'r', 't', ' ') && LacksTrigram(l0, 'c', 'a', 'l')
    requires |l1| >= 2 && l1[0] == 'f' && l1[1] == 'u' && l1[|l1| - 2] == 'n' && l1[|l1| - 1] == ' ' && LacksTrigram(l1, 'r', 't', ' ') && LacksTrigram(l1, 'c', 'a', 'l')
    requires |l2| >= 2 && l2[0] == 't' && l2[1] == 'h' && l2[|l2| - 2] == 's' && l2[|l2| - 1] == ' ' && LacksTrigram(l2, 'r', 't', ' ') && LacksTrigram(l2, 'c', 'a', 'l')
    requires |l3| >= 2 && l3[0] == 'a' && l3[1] == ' ' && l3[|l3| - 2] == 'f' && l3[|l3| - 1] == ' ' && LacksTrigram(l3, 'r', 't', ' ') && LacksTrigram(l3, 'c', 'a', 'l')
    requires |l4| >= 2 && l4[0] == 'd' && l4[1] == 'i' && l4[|l4| - 2] == 's' && l4[|l4| - 1] == ' ' && LacksTrigram(l4, 'r', 't', ' ') && LacksTrigram(l4, 'c', 'a', 'l')
    requires |l5| >= 2 && l5[0] == 'b' && l5[1] == 'y' && l5[|l5| - 2] == 'a' && l5[|l5| - 1] == ' ' && LacksTrigram(l5, 'r', 't', ' ') && LacksTrigram(l5, 'c', 'a', 'l')
    requires |l6| >= 2 && l6[0] == 's' && l6[1] == 'p' && LacksTrigram(l6, 'r', 't', ' ') && LacksTrigram(l6, 'c', 'a', 'l')
    ensures !Contains(l0 + l1 + l2 + l3 + l4 + l5 + l6, MockTriggers[0])
    ensures !Contains(l0 + l1 + l2 + l3 + l4 + l5 + l6, MockTriggers[2])
  {
    MissesTrigram7(l0, l1, l2, l3, l4, l5, l6, 'r', 't', ' ', MockTriggers[0], 2);
    MissesTrigram7(l0, l1, l2, l3, l4, l5, l6, 'c', 'a', 'l', MockTriggers[2], 0);
  }

  /** Which triggers the lowered prompt contains. */
  lemma SortsDictionariesSearch(s: string)
    requires s == "create a " + "function " + "that sorts " + "a list of " + "dictionaries " + "by a " + "specific key"
    ensures !Contains(s, MockTriggers[0])
    ensures !Contains(s, MockTriggers[1])
    ensures !Contains(s, MockTriggers[2])
    ensures !Contains(s, MockTriggers[3])
    ensures !Contains(s, MockTriggers[4])
    ensures !Contains(s, MockTriggers[5])
    ensures !Contains(s, MockTriggers[6])
    ensures !Contains(s, MockTriggers[7])
  {
    SortsDictionariesPiece0Facts("create a ");
    SortsDictionariesPiece1Facts("function ");
    SortsDictionariesPiece2Facts("that sorts ");
    SortsDictionariesPiece3Facts("a list of ");
    SortsDictionariesPiece4Facts("dictionaries ");
    SortsDictionariesPiece5Facts("by a ");
    SortsDictionariesPiece6Facts("specific key");
    SortsDictionariesMissesByLetterFrom("create a ", "function ", "that sorts ", "a list of ", "dictionaries ", "by a ", "specific key");
    SortsDictionariesMissesByTrigramFrom("create a ", "function ", "that sorts ", "a list of ", "dictionaries ", "by a ", "specific key");
  }

  lemma SortsDictionariesMatches()
    ensures !Matches(SortsDictionariesExample, MockTriggers[0])
    ensures !Matches(SortsDictionariesExample, MockTriggers[1])
    ensures !Matches(SortsDictionariesExample, MockTriggers[2])
    ensures !Matches(SortsDictionariesExample, MockTriggers[3])
    ensures !Matches(SortsDictionariesExample, MockTriggers[4])
    ensures !Matches(SortsDictionariesExample, MockTriggers[5])
    ensures !Matches(SortsDictionariesExample, MockTriggers[6])
    ensures !Matches(SortsDictionariesExample, MockTriggers[7])
  {
    SortsDictionariesLowered();
    TriggersLowerCase();
    SortsDictionariesSearch(Lower(SortsDictionariesExample));
  }

  lemma SortsDictionariesPrompt()
    ensures FirstMatch(MockTriggers, SortsDictionariesExample) == ExampleOutcomes[0]
  {
    SortsDictionariesMatches();
    FirstMatchOfEight(MockTriggers, SortsDictionariesExample);
  }

  // Write a function to find the second largest number in a list

  lemma SecondLargestPiece0(p: string, l: string)
    requires p == "Write a " && l == "write a "
    ensures Lower(p) == l
  {
  }

  lemma SecondLargestPiece1(p: string, l: string)
    requires p == "function to " && l == "function to "
    ensures Lower(p) == l
  {
  }

  lemma SecondLargestPiece2(p: string, l: string)
    requires p == "find the " && l == "find the "
    ensures Lower(p) == l
  {
  }

  lemma SecondLargestPiece3(p: string, l: string)
    requires p == "second largest number" && l == "second largest number"
    ensures Lower(p) == l
  {
  }

  lemma SecondLargestPiece4(p: string, l: string)
    requires p == " in a list" && l == " in a list"
    ensures Lower(p) == l
  {
  }

  lemma SecondLargestLowered()
    ensures Lower(SecondLargestExample) == "write a " + "function to " + "find the " + "second largest number" + " in a list"
  {
    SecondLargestPiece0("Write a ", "write a ");
    SecondLargestPiece1("function to ", "function to ");
    SecondLargestPiece2("find the ", "find the ");
    SecondLargestPiece3("second largest number", "second largest number");
    SecondLargestPiece4(" in a list", " in a list");
    LowerAppend("Write a ", "function to ");
    LowerAppend("Write a " + "function to ", "find the ");
    LowerAppend("Write a " + "function to " + "find the ", "second largest number");
    LowerAppend("Write a " + "function to " + "find the " + "second largest number", " in a list");
  }

  lemma SecondLargestPiece0Facts(l: string)
    requires l == "write a "
    ensures |l| >= 2 && l[|l| - 2] == 'a' && l[|l| - 1] == ' '
    ensures LacksTrigram(l, 's', 'o', 'r')
  {
  }

  lemma SecondLargestPiece1Facts(l: string)
    requires l == "function to "
    ensures |l| >= 2 && l[0] == 'f' && l[1] == 'u' && l[|l| - 2] == 'o' && l[|l| - 1] == ' '
    ensures LacksTrigram(l, 's', 'o', 'r')
  {
  }

  lemma SecondLargestPiece2Facts(l: string)
    requires l == "find the "
    ensures |l| >= 2 && l[0] == 'f' && l[1] == 'i' && l[|l| - 2] == 'e' && l[|l| - 1] == ' '
    ensures LacksTrigram(l, 's', 'o', 'r')
  {
  }

  lemma SecondLargestPiece3Facts(l: string)
    requires l == "second largest number"
    ensures |l| >= 2 && l[0] == 's' && l[1] == 'e' && l[|l| - 2] == 'e' && l[|l| - 1] == 'r'
    ensures LacksTrigram(l, 's', 'o', 'r')
  {
  }

  lemma SecondLargestPiece4Facts(l: string)
    requires l == " in a list"
    ensures |l| >= 2 && l[0] == ' ' && l[1] == 'i'
    ensures LacksTrigram(l, 's', 'o', 'r')
  {
  }

  lemma {:induction false} SecondLargestHitsFrom(l0: string, l1: string, l2: string, l3: string, l4: string)
    ensures Contains(l0 + l1 + l2 + l3 + l4, l3)
  {
    ContainsEnd(l0 + l1 + l2, l3);
    ContainsExtend(l0 + l1 + l2 + l3, l3, l4);
  }

  lemma {:induction false} SecondLargestMissesByTrigramFrom(l0: string, l1: string, l2: string, l3: string, l4: string)
    requires |l0| >= 2 && l0[|l0| - 2] == 'a' && l0[|l0| - 1] == ' ' && LacksTrigram(l0, 's', 'o', 'r')
    requires |l1| >= 2 && l1[0] == 'f' && l1[1] == 'u' && l1[|l1| - 2] == 'o' && l1[|l1| - 1] == ' ' && LacksTrigram(l1, 's', 'o', 'r')
    requires |l2| >= 2 && l2[0] == 'f' && l2[1] == 'i' && l2[|l2| - 2] == 'e' && l2[|l2| - 1] == ' ' && LacksTrigram(l2, 's', 'o', 'r')
    requires |l3| >= 2 && l3[0] == 's' && l3[1] == 'e' && l3[|l3| - 2] == 'e' && l3[|l3| - 1] == 'r' && LacksTrigram(l3, 's', 'o', 'r')
    requires |l4| >= 2 && l4[0] == ' ' && l4[1] == 'i' && LacksTrigram(l4, 's', 'o', 'r')
    ensures !Contains(l0 + l1 + l2 + l3 + l4, MockTriggers[0])
  {
    MissesTrigram5(l0, l1, l2, l3, l4, 's', 'o', 'r', MockTriggers[0], 0);
  }

  /** Which triggers the lowered prompt contains. */
  lemma SecondLargestSearch(s: string)
    requires s == "write a " + "function to " + "find the " + "second largest number" + " in a list"
    ensures Contains(s, MockTriggers[1])
    ensures !Contains(s, MockTriggers[0])
  {
    SecondLargestPiece0Facts("write a ");
    SecondLargestPiece1Facts("function to ");
    SecondLargestPiece2Facts("find the ");
    SecondLargestPiece3Facts("second largest number");
    SecondLargestPiece4Facts(" in a list");
    SecondLargestMissesByTrigramFrom("write a ", "function to ", "find the ", "second largest number", " in a list");
    SecondLargestHitsFrom("write a ", "function to ", "find the ", "second largest number", " in a list");
  }

  lemma SecondLargestMatches()
    ensures Matches(SecondLargestExample, MockTriggers[1])
    ensures !Matches(SecondLargestExample, MockTriggers[0])
  {
    SecondLargestLowered();
    TriggersLowerCase();
    SecondLargestSearch(Lower(SecondLargestExample));
  }

  lemma SecondLargestPrompt()
    ensures FirstMatch(MockTriggers, SecondLargestExample) == ExampleOutcomes[1]
  {
    SecondLargestMatches();
    FirstMatchOfEight(MockTriggers, SecondLargestExample);
  }

  // Create a class for a simple calculator with basic operations

  lemma CalculatorPiece0(p: string, l: string)
    requires p == "Create a " && l == "create a "
    ensures Lower(p) == l
  {
  }

  lemma CalculatorPiece1(p: string, l: string)
    requires p == "class for a " && l == "class for a "
    ensures Lower(p) == l
  {
  }

  lemma CalculatorPiece2(p: string, l: string)
    requires p == "simple " && l == "simple "
    ensures Lower(p) == l
  {
  }

  lemma CalculatorPiece3(p: string, l: string)
    requires p == "calculator " && l == "calculator "
    ensures Lower(p) == l
  {
  }

  lemma CalculatorPiece4(p: string, l: string)
    requires p == "with basic " && l == "with basic "
    ensures Lower(p) == l
  {
  }

  lemma CalculatorPiece5(p: string, l: string)
    requires p == "operations" && l == "operations"
    ensures Lower(p) == l
  {
  }

  lemma CalculatorLowered()
    ensures Lower(CalculatorExample) == "create a " + "class for a " + "simple " + "calculator " + "with basic " + "operations"
  {
    CalculatorPiece0("Create a ", "create a ");
    CalculatorPiece1("class for a ", "class for a ");
    CalculatorPiece2("simple ", "simple ");
    CalculatorPiece3("calculator ", "calculator ");
    CalculatorPiece4("with basic ", "with basic ");
    CalculatorPiece5("operations", "operations");
    LowerAppend("Create a ", "class for a ");
    LowerAppend("Create a " + "class for a ", "simple ");
    LowerAppend("Create a " + "class for a " + "simple ", "calculator ");
    LowerAppend("Create a " + "class for a " + "simple " + "calculator ", "with basic ");
    LowerAppend("Create a " + "class for a " + "simple " + "calculator " + "with basic ", "operations");
  }

  lemma CalculatorPiece0Facts(l: string)
    requires l == "create a "
    ensures |l| >= 2 && l[|l| - 2] == 'a' && l[|l| - 1] == ' '
    ensures 'd' !in l && 'j' !in l
    ensures LacksTrigram(l, 'r', ' ', 'c') && LacksTrigram(l, 'w', 'e', 'b')
  {
  }

  lemma CalculatorPiece1Facts(l: string)
    requires l == "class for a "
    ensures |l| >= 2 && l[0] == 'c' && l[1] == 'l' && l[|l| - 2] == 'a' && l[|l| - 1] == ' '
    ensures 'd' !in l && 'j' !in l
    ensures LacksTrigram(l, 'r', ' ', 'c') && LacksTrigram(l, 'w', 'e', 'b')
  {
  }

  lemma CalculatorPiece2Facts(l: string)
    requires l == "simple "
    ensures |l| >= 2 && l[0] == 's' && l[1] == 'i' && l[|l| - 2] == 'e' && l[|l| - 1] == ' '
    ensures 'd' !in l && 'j' !in l
    ensures LacksTrigram(l, 'r', ' ', 'c') && LacksTrigram(l, 'w', 'e', 'b')
  {
  }

  lemma CalculatorPiece3Facts(l: string)
    requires l == "calculator "
    ensures |l| >= 2 && l[0] == 'c' && l[1] == 'a' && l[|l| - 2] == 'r' && l[|l| - 1] == ' '
    ensures 'd' !in l && 'j' !in l
    ensures LacksTrigram(l, 'r', ' ', 'c') && LacksTrigram(l, 'w', 'e', 'b')
  {
  }

  lemma CalculatorPiece4Facts(l: string)
    requires l == "with basic "
    ensures |l| >= 2 && l[0] == 'w' && l[1] == 'i' && l[|l| - 2] == 'c' && l[|l| - 1] == ' '
    ensures 'd' !in l && 'j' !in l
    ensures LacksTrigram(l, 'r', ' ', 'c') && LacksTrigram(l, 'w', 'e', 'b')
  {
  }

  lemma CalculatorPiece5Facts(l: string)
    requires l == "operations"
    ensures |l| >= 2 && l[0] == 'o' && l[1] == 'p'
    ensures 'd' !in l && 'j' !in l
    ensures LacksTrigram(l, 'r', ' ', 'c') && LacksTrigram(l, 'w', 'e', 'b')
  {
  }

  lemma {:induction false} CalculatorMissesByLetterFrom(l0: string, l1: string, l2: string, l3: string, l4: string, l5: string)
    requires 'd' !in l0 && 'j' !in l0
    requires 'd' !in l1 && 'j' !in l1
    requires 'd' !in l2 && 'j' !in l2
    requires 'd' !in l3 && 'j' !in l3
    requires 'd' !in l4 && 'j' !in l4
    requires 'd' !in l5 && 'j' !in l5
    ensures !Contains(l0 + l1 + l2 + l3 + l4 + l5, MockTriggers[0])
    ensures !Contains(l0 + l1 + l2 + l3 + l4 + l5, MockTriggers[1])
    ensures !Contains(l0 + l1 + l2 + l3 + l4 + l5, MockTriggers[3])
    ensures !Contains(l0 + l1 + l2 + l3 + l4 + l5, MockTriggers[4])
    ensures !Contains(l0 + l1 + l2 + l3 + l4 + l5, MockTriggers[5])
    ensures !Contains(l0 + l1 + l2 + l3 + l4 + l5, MockTriggers[6])
  {
    MissingChar(l0 + l1 + l2 + l3 + l4 + l5, MockTriggers[0], 10);  // 'd'
    MissingChar(l0 + l1 + l2 + l3 + l4 + l5, MockTriggers[1], 5);  // 'd'
    MissingChar(l0 + l1 + l2 + l3 + l4 + l5, MockTriggers[3], 7);  // 'j'
    MissingChar(l0 + l1 + l2 + l3 + l4 + l5, MockTriggers[4], 5);  // 'd'
    MissingChar(l0 + l1 + l2 + l3 + l4 + l5, MockTriggers[5], 15);  // 'd'
    MissingChar(l0 + l1 + l2 + l3 + l4 + l5, MockTriggers[6], 11);  // 'd'
  }

  lemma {:induction false} CalculatorMissesByTrigramFrom(l0: string, l1: string, l2: string, l3: string, l4: string, l5: string)
    requires |l0| >= 2 && l0[|l0| - 2] == 'a' && l0[|l0| - 1] == ' ' && LacksTrigram(l0, 'r', ' ', 'c') && LacksTrigram(l0, 'w', 'e', 'b')
    requires |l1| >= 2 && l1[0] == 'c' && l1[1] == 'l' && l1[|l1| - 2] == 'a' && l1[|l1| - 1] == ' ' && LacksTrigram(l1, 'r', ' ', 'c') && LacksTrigram(l1, 'w', 'e', 'b')
    requires |l2| >= 2 && l2[0] == 's' && l2[1] == 'i' && l2[|l2| - 2] == 'e' && l2[|l2| - 1] == ' ' && LacksTrigram(l2, 'r', ' ', 'c') && LacksTrigram(l2, 'w', 'e', 'b')
    requires |l3| >= 2 && l3[0] == 'c' && l3[1] == 'a' && l3[|l3| - 2] == 'r' && l3[|l3| - 1] == ' ' && LacksTrigram(l3, 'r', ' ', 'c') && LacksTrigram(l3, 'w', 'e', 'b')
    requires |l4| >= 2 && l4[0] == 'w' && l4[1] == 'i' && l4[|l4| - 2] == 'c' && l4[|l4| - 1] == ' ' && LacksTrigram(l4, 'r', ' ', 'c') && LacksTrigram(l4, 'w', 'e', 'b')
    requires |l5| >= 2 && l5[0] == 'o' && l5[1] == 'p' && LacksTrigram(l5, 'r', ' ', 'c') && LacksTrigram(l5, 'w', 'e', 'b')
    ensures !Contains(l0 + l1 + l2 + l3 + l4 + l5, MockTriggers[2])
    ensures !Contains(l0 + l1 + l2 + l3 + l4 + l5, MockTriggers[7])
  {
    MissesTrigram6(l0, l1, l2, l3, l4, l5, 'r', ' ', 'c', MockTriggers[2], 9);
    MissesTrigram6(l0, l1, l2, l3, l4, l5, 'w', 'e', 'b', MockTriggers[7], 0);
  }

  /** Which triggers the lowered prompt contains. */
  lemma CalculatorSearch(s: string)
    requires s == "create a " + "class for a " + "simple " + "calculator " + "with basic " + "operations"
    ensures !Contains(s, MockTriggers[0])
    ensures !Contains(s, MockTriggers[1])
    ensures !Contains(s, MockTriggers[2])
    ensures !Contains(s, MockTriggers[3])
    ensures !Contains(s, MockTriggers[4])
    ensures !Contains(s, MockTriggers[5])
    ensures !Contains(s, MockTriggers[6])
    ensures !Contains(s, MockTriggers[7])
  {
    CalculatorPiece0Facts("create a ");
    CalculatorPiece1Facts("class for a ");
    CalculatorPiece2Facts("simple ");
    CalculatorPiece3Facts("calculator ");
    CalculatorPiece4Facts("with basic ");
    CalculatorPiece5Facts("operations");
    CalculatorMissesByLetterFrom("create a ", "class for a ", "simple ", "calculator ", "with basic ", "operations");
    CalculatorMissesByTrigramFrom("create a ", "class for a ", "simple ", "calculator ", "with basic ", "operations");
  }

  lemma CalculatorMatches()
    ensures !Matches(CalculatorExample, MockTriggers[0])
    ensures !Matches(CalculatorExample, MockTriggers[1])
    ensures !Matches(CalculatorExample, MockTriggers[2])
    ensures !Matches(CalculatorExample, MockTriggers[3])
    ensures !Matches(CalculatorExample, MockTriggers[4])
    ensures !Matches(CalculatorExample, MockTriggers[5])
    ensures !Matches(CalculatorExample, MockTriggers[6])
    ensures !Matches(CalculatorExample, MockTriggers[7])
  {
    CalculatorLowered();
    TriggersLowerCase();
    CalculatorSearch(Lower(CalculatorExample));
  }

  lemma CalculatorPrompt()
    ensures FirstMatch(MockTriggers, CalculatorExample) == ExampleOutcomes[2]
  {
    CalculatorMatches();
    FirstMatchOfEight(MockTriggers, CalculatorExample);
  }

  // Generate code to read a CSV file and convert it to JSON

  lemma CsvToJsonPiece0(p: string, l: string)
    requires p == "Generate " && l == "generate "
    ensures Lower(p) == l
  {
  }

  lemma CsvToJsonPiece1(p: string, l: string)
    requires p == "code to " && l == "code to "
    ensures Lower(p) == l
  {
  }

  lemma CsvToJsonPiece2(p: string, l: string)
    requires p == "read a CSV " && l == "read a csv "
    ensures Lower(p) == l
  {
  }

  lemma CsvToJsonPiece3(p: string, l: string)
    requires p == "file and " && l == "file and "
    ensures Lower(p) == l
  {
  }

  lemma CsvToJsonPiece4(p: string, l: string)
    requires p == "convert it " && l == "convert it "
    ensures Lower(p) == l
  {
  }

  lemma CsvToJsonPiece5(p: string, l: string)
    requires p == "to JSON" && l == "to json"
    ensures Lower(p) == l
  {
  }

  lemma CsvToJsonLowered()
    ensures Lower(CsvToJsonExample) == "generate " + "code to " + "read a csv " + "file and " + "convert it " + "to json"
  {
    CsvToJsonPiece0("Generate ", "generate ");
    CsvToJsonPiece1("code to ", "code to ");
    CsvToJsonPiece2("read a CSV ", "read a csv ");
    CsvToJsonPiece3("file and ", "file and ");
    CsvToJsonPiece4("convert it ", "convert it ");
    CsvToJsonPiece5("to JSON", "to json");
    LowerAppend("Generate ", "code to ");
    LowerAppend("Generate " + "code to ", "read a CSV ");
    LowerAppend("Generate " + "code to " + "read a CSV ", "file and ");
    LowerAppend("Generate " + "code to " + "read a CSV " + "file and ", "convert it ");
    LowerAppend("Generate " + "code to " + "read a CSV " + "file and " + "convert it ", "to JSON");
  }

  lemma CsvToJsonPiece0Facts(l: string)
    requires l == "generate "
    ensures |l| >= 2 && l[|l| - 2] == 'e' && l[|l| - 1] == ' '
    ensures 'b' !in l && 'm' !in l && 'u' !in l
    ensures LacksTrigram(l, 's', 'o', 'r') && LacksTrigram(l, 'v', ' ', 't')
  {
  }

  lemma CsvToJsonPiece1Facts(l: string)
    requires l == "code to "
    ensures |l| >= 2 && l[0] == 'c' && l[1] == 'o' && l[|l| - 2] == 'o' && l[|l| - 1] == ' '
    ensures 'b' !in l && 'm' !in l && 'u' !in l
    ensures LacksTrigram(l, 's', 'o', 'r') && LacksTrigram(l, 'v', ' ', 't')
  {
  }

  lemma CsvToJsonPiece2Facts(l: string)
    requires l == "read a csv "
    ensures |l| >= 2 && l[0] == 'r' && l[1] == 'e' && l[|l| - 2] == 'v' && l[|l| - 1] == ' '
    ensures 'b' !in l && 'm' !in l && 'u' !in l
    ensures LacksTrigram(l, 's', 'o', 'r') && LacksTrigram(l, 'v', ' ', 't')
  {
  }

  lemma CsvToJsonPiece3Facts(l: string)
    requires l == "file and "
    ensures |l| >= 2 && l[0] == 'f' && l[1] == 'i' && l[|l| - 2] == 'd' && l[|l| - 1] == ' '
    ensures 'b' !in l && 'm' !in l && 'u' !in l
    ensures LacksTrigram(l, 's', 'o', 'r') && LacksTrigram(l, 'v', ' ', 't')
  {
  }

  lemma CsvToJsonPiece4Facts(l: string)
    requires l == "convert it "
    ensures |l| >= 2 && l[0] == 'c' && l[1] == 'o' && l[|l| - 2] == 't' && l[|l| - 1] == ' '
    ensures 'b' !in l && 'm' !in l && 'u' !in l
    ensures LacksTrigram(l, 's', 'o', 'r') && LacksTrigram(l, 'v', ' ', 't')
  {
  }

  lemma CsvToJsonPiece5Facts(l: string)
    requires l == "to json"
    ensures |l| >= 2 && l[0] == 't' && l[1] == 'o'
    ensures 'b' !in l && 'm' !in l && 'u' !in l
    ensures LacksTrigram(l, 's', 'o', 'r') && LacksTrigram(l, 'v', ' ', 't')
  {
  }

  lemma {:induction false} CsvToJsonMissesByLetterFrom(l0: string, l1: string, l2: string, l3: string, l4: string, l5: string)
    requires 'b' !in l0 && 'm' !in l0 && 'u' !in l0
    requires 'b' !in l1 && 'm' !in l1 && 'u' !in l1
    requires 'b' !in l2 && 'm' !in l2 && 'u' !in l2
    requires 'b' !in l3 && 'm' !in l3 && 'u' !in l3
    requires 'b' !in l4 && 'm' !in l4 && 'u' !in l4
    requires 'b' !in l5 && 'm' !in l5 && 'u' !in l5
    ensures !Contains(l0 + l1 + l2 + l3 + l4 + l5, MockTriggers[1])
    ensures !Contains(l0 + l1 + l2 + l3 + l4 + l5, MockTriggers[2])
    ensures !Contains(l0 + l1 + l2 + l3 + l4 + l5, MockTriggers[4])
    ensures !Contains(l0 + l1 + l2 + l3 + l4 + l5, MockTriggers[5])
    ensures !Contains(l0 + l1 + l2 + l3 + l4 + l5, MockTriggers[6])
    ensures !Contains(l0 + l1 + l2 + l3 + l4 + l5, MockTriggers[7])
  {
    MissingChar(l0 + l1 + l2 + l3 + l4 + l5, MockTriggers[1], 17);  // 'm'
    MissingChar(l0 + l1 + l2 + l3 + l4 + l5, MockTriggers[2], 4);  // 'u'
    MissingChar(l0 + l1 + l2 + l3 + l4 + l5, MockTriggers[4], 8);  // 'm'
    MissingChar(l0 + l1 + l2 + l3 + l4 + l5, MockTriggers[5], 12);  // 'm'
    MissingChar(l0 + l1 + l2 + l3 + l4 + l5, MockTriggers[6], 0);  // 'm'
    MissingChar(l0 + l1 + l2 + l3 + l4 + l5, MockTriggers[7], 2);  // 'b'
  }

  lemma {:induction false} CsvToJsonMissesByTrigramFrom(l0: string, l1: string, l2: string, l3: string, l4: string, l5: string)
    requires |l0| >= 2 && l0[|l0| - 2] == 'e' && l0[|l0| - 1] == ' ' && LacksTrigram(l0, 's', 'o', 'r') && LacksTrigram(l0, 'v', ' ', 't')
    requires |l1| >= 2 && l1[0] == 'c' && l1[1] == 'o' && l1[|l1| - 2] == 'o' && l1[|l1| - 1] == ' ' && LacksTrigram(l1, 's', 'o', 'r') && LacksTrigram(l1, 'v', ' ', 't')
    requires |l2| >= 2 && l2[0] == 'r' && l2[1] == 'e' && l2[|l2| - 2] == 'v' && l2[|l2| - 1] == ' ' && LacksTrigram(l2, 's', 'o', 'r') && LacksTrigram(l2, 'v', ' ', 't')
    requires |l3| >= 2 && l3[0] == 'f' && l3[1] == 'i' && l3[|l3| - 2] == 'd' && l3[|l3| - 1] == ' ' && LacksTrigram(l3, 's', 'o', 'r') && LacksTrigram(l3, 'v', ' ', 't')
    requires |l4| >= 2 && l4[0] == 'c' && l4[1] == 'o' && l4[|l4| - 2] == 't' && l4[|l4| - 1] == ' ' && LacksTrigram(l4, 's', 'o', 'r') && LacksTrigram(l4, 'v', ' ', 't')
    requires |l5| >= 2 && l5[0] == 't' && l5[1] == 'o' && LacksTrigram(l5, 's', 'o', 'r') && LacksTrigram(l5, 'v', ' ', 't')
    ensures !Contains(l0 + l1 + l2 + l3 + l4 + l5, MockTriggers[0])
    ensures !Contains(l0 + l1 + l2 + l3 + l4 + l5, MockTriggers[3])
  {
    MissesTrigram6(l0, l1, l2, l3, l4, l5, 's', 'o', 'r', MockTriggers[0], 0);
    MissesTrigram6(l0, l1, l2, l3, l4, l5, 'v', ' ', 't', MockTriggers[3], 2);
  }

  /** Which triggers the lowered prompt contains. */
  lemma CsvToJsonSearch(s: string)
    requires s == "generate " + "code to " + "read a csv " + "file and " + "convert it " + "to json"
    ensures !Contains(s, MockTriggers[0])
    ensures !Contains(s, MockTriggers[1])
    ensures !Contains(s, MockTriggers[2])
    ensures !Contains(s, MockTriggers[3])
    ensures !Contains(s, MockTriggers[4])
    ensures !Contains(s, MockTriggers[5])
    ensures !Contains(s, MockTriggers[6])
    ensures !Contains(s, MockTriggers[7])
  {
    CsvToJsonPiece0Facts("generate ");
    CsvToJsonPiece1Facts("code to ");
    CsvToJsonPiece2Facts("read a csv ");
    CsvToJsonPiece3Facts("file and ");
    CsvToJsonPiece4Facts("convert it ");
    CsvToJsonPiece5Facts("to json");
    CsvToJsonMissesByLetterFrom("generate ", "code to ", "read a csv ", "file and ", "convert it ", "to json");
    CsvToJsonMissesByTrigramFrom("generate ", "code to ", "read a csv ", "file and ", "convert it ", "to json");
  }

  lemma CsvToJsonMatches()
    ensures !Matches(CsvToJsonExample, MockTriggers[0])
    ensures !Matches(CsvToJsonExample, MockTriggers[1])
    ensures !Matches(CsvToJsonExample, MockTriggers[2])
    ensures !Matches(CsvToJsonExample, MockTriggers[3])
    ensures !Matches(CsvToJsonExample, MockTriggers[4])
    ensures !Matches(CsvToJsonExample, MockTriggers[5])
    ensures !Matches(CsvToJsonExample, MockTriggers[6])
    ensures !Matches(CsvToJsonExample, MockTriggers[7])
  {
    CsvToJsonLowered();
    TriggersLowerCase();
    CsvToJsonSearch(Lower(CsvToJsonExample));
  }

  lemma CsvToJsonPrompt()
    ensures FirstMatch(MockTriggers, CsvToJsonExample) == ExampleOutcomes[3]
  {
    CsvToJsonMatches();
    FirstMatchOfEight(MockTriggers, CsvToJsonExample);
  }

  // Write a function that checks if a string is a palindrome

  lemma PalindromePiece0(p: string, l: string)
    requires p == "Write a " && l == "write a "
    ensures Lower(p) == l
  {
  }

  lemma PalindromePiece1(p: string, l: string)
    requires p == "function " && l == "function "
    ensures Lower(p) == l
  {
  }

  lemma PalindromePiece2(p: string, l: string)
    requires p == "that checks " && l == "that checks "
    ensures Lower(p) == l
  {
  }

  lemma PalindromePiece3(p: string, l: string)
    requires p == "if a string " && l == "if a string "
    ensures Lower(p) == l
  {
  }

  lemma PalindromePiece4(p: string, l: string)
    requires p == "is a " && l == "is a "
    ensures Lower(p) == l
  {
  }

  lemma PalindromePiece5(p: string, l: string)
    requires p == "palindrome" && l == "palindrome"
    ensures Lower(p) == l
  {
  }

  lemma PalindromeLowered()
    ensures Lower(PalindromeExample) == "write a " + "function " + "that checks " + "if a string " + "is a " + "palindrome"
  {
    PalindromePiece0("Write a ", "write a ");
    PalindromePiece1("function ", "function ");
    PalindromePiece2("that checks ", "that checks ");
    PalindromePiece3("if a string ", "if a string ");
    PalindromePiece4("is a ", "is a ");
    PalindromePiece5("palindrome", "palindrome");
    LowerAppend("Write a ", "function ");
    LowerAppend("Write a " + "function ", "that checks ");
    LowerAppend("Write a " + "function " + "that checks ", "if a string ");
    LowerAppend("Write a " + "function " + "that checks " + "if a string ", "is a ");
    LowerAppend("Write a " + "function " + "that checks " + "if a string " + "is a ", "palindrome");
  }

  lemma PalindromePiece0Facts(l: string)
    requires l == "write a "
    ensures |l| >= 2 && l[|l| - 2] == 'a' && l[|l| - 1] == ' '
    ensures 'b' !in l && 'j' !in l
    ensures LacksTrigram(l, 'c', 'a', 'l') && LacksTrigram(l, 's', 'o', 'r')
  {
  }

  lemma PalindromePiece1Facts(l: string)
    requires l == "function "
    ensures |l| >= 2 && l[0] == 'f' && l[1] == 'u' && l[|l| - 2] == 'n' && l[|l| - 1] == ' '
    ensures 'b' !in l && 'j' !in l
    ensures LacksTrigram(l, 'c', 'a', 'l') && LacksTrigram(l, 's', 'o', 'r')
  {
  }

  lemma PalindromePiece2Facts(l: string)
    requires l == "that checks "
    ensures |l| >= 2 && l[0] == 't' && l[1] == 'h' && l[|l| - 2] == 's' && l[|l| - 1] == ' '
    ensures 'b' !in l && 'j' !in l
    ensures LacksTrigram(l, 'c', 'a', 'l') && LacksTrigram(l, 's', 'o', 'r')
  {
  }

  lemma PalindromePiece3Facts(l: string)
    requires l == "if a string "
    ensures |l| >= 2 && l[0] == 'i' && l[1] == 'f' && l[|l| - 2] == 'g' && l[|l| - 1] == ' '
    ensures 'b' !in l && 'j' !in l
    ensures LacksTrigram(l, 'c', 'a', 'l') && LacksTrigram(l, 's', 'o', 'r')
  {
  }

  lemma PalindromePiece4Facts(l: string)
    requires l == "is a "
    ensures |l| >= 2 && l[0] == 'i' && l[1] == 's' && l[|l| - 2] == 'a' && l[|l| - 1] == ' '
    ensures 'b' !in l && 'j' !in l
    ensures LacksTrigram(l, 'c', 'a', 'l') && LacksTrigram(l, 's', 'o', 'r')
  {
  }

  lemma PalindromePiece5Facts(l: string)
    requires l == "palindrome"
    ensures |l| >= 2 && l[0] == 'p' && l[1] == 'a'
    ensures 'b' !in l && 'j' !in l
    ensures LacksTrigram(l, 'c', 'a', 'l') && LacksTrigram(l, 's', 'o', 'r')
  {
  }

  lemma {:induction false} PalindromeMissesByLetterFrom(l0: string, l1: string, l2: string, l3: string, l4: string, l5: string)
    requires 'b' !in l0 && 'j' !in l0
    requires 'b' !in l1 && 'j' !in l1
    requires 'b' !in l2 && 'j' !in l2
    requires 'b' !in l3 && 'j' !in l3
    requires 'b' !in l4 && 'j' !in l4
    requires 'b' !in l5 && 'j' !in l5
    ensures !Contains(l0 + l1 + l2 + l3 + l4 + l5, MockTriggers[1])
    ensures !Contains(l0 + l1 + l2 + l3 + l4 + l5, MockTriggers[3])
  {
    MissingChar(l0 + l1 + l2 + l3 + l4 + l5, MockTriggers[1], 18);  // 'b'
    MissingChar(l0 + l1 + l2 + l3 + l4 + l5, MockTriggers[3], 7);  // 'j'
  }

  lemma {:induction false} PalindromeHitsFrom(l0: string, l1: string, l2: string, l3: string, l4: string, l5: string)
    ensures Contains(l0 + l1 + l2 + l3 + l4 + l5, l5)
  {
    ContainsEnd(l0 + l1 + l2 + l3 + l4, l5);
  }

  lemma {:induction false} PalindromeMissesByTrigramFrom(l0: string, l1: string, l2: string, l3: string, l4: string, l5: string)
    requires |l0| >= 2 && l0[|l0| - 2] == 'a' && l0[|l0| - 1] == ' ' && LacksTrigram(l0, 's', 'o', 'r') && LacksTrigram(l0, 'c', 'a', 'l')
    requires |l1| >= 2 && l1[0] == 'f' && l1[1] == 'u' && l1[|l1| - 2] == 'n' && l1[|l1| - 1] == ' ' && LacksTrigram(l1, 's', 'o', 'r') && LacksTrigram(l1, 'c', 'a', 'l')
    requires |l2| >= 2 && l2[0] == 't' && l2[1] == 'h' && l2[|l2| - 2] == 's' && l2[|l2| - 1] == ' ' && LacksTrigram(l2, 's', 'o', 'r') && LacksTrigram(l2, 'c', 'a', 'l')
    requires |l3| >= 2 && l3[0] == 'i' && l3[1] == 'f' && l3[|l3| - 2] == 'g' && l3[|l3| - 1] == ' ' && LacksTrigram(l3, 's', 'o', 'r') && LacksTrigram(l3, 'c', 'a', 'l')
    requires |l4| >= 2 && l4[0] == 'i' && l4[1] == 's' && l4[|l4| - 2] == 'a' && l4[|l4| - 1] == ' ' && LacksTrigram(l4, 's', 'o', 'r') && LacksTrigram(l4, 'c', 'a', 'l')
    requires |l5| >= 2 && l5[0] == 'p' && l5[1] == 'a' && LacksTrigram(l5, 's', 'o', 'r') && LacksTrigram(l5, 'c', 'a', 'l')
    ensures !Contains(l0 + l1 + l2 + l3 + l4 + l5, MockTriggers[0])
    ensures !Contains(l0 + l1 + l2 + l3 + l4 + l5, MockTriggers[2])
  {
    MissesTrigram6(l0, l1, l2, l3, l4, l5, 's', 'o', 'r', MockTriggers[0], 0);
    MissesTrigram6(l0, l1, l2, l3, l4, l5, 'c', 'a', 'l', MockTriggers[2], 0);
  }

  /** Which triggers the lowered prompt contains. */
  lemma PalindromeSearch(s: string)
    requires s == "write a " + "function " + "that checks " + "if a string " + "is a " + "palindrome"
    ensures Contains(s, MockTriggers[4])
    ensures !Contains(s, MockTriggers[0])
    ensures !Contains(s, MockTriggers[1])
    ensures !Contains(s, MockTriggers[2])
    ensures !Contains(s, MockTriggers[3])
  {
    PalindromePiece0Facts("write a ");
    PalindromePiece1Facts("function ");
    PalindromePiece2Facts("that checks ");
    PalindromePiece3Facts("if a string ");
    PalindromePiece4Facts("is a ");
    PalindromePiece5Facts("palindrome");
    PalindromeMissesByLetterFrom("write a ", "function ", "that checks ", "if a string ", "is a ", "palindrome");
    PalindromeMissesByTrigramFrom("write a ", "function ", "that checks ", "if a string ", "is a ", "palindrome");
    PalindromeHitsFrom("write a ", "function ", "that checks ", "if a string ", "is a ", "palindrome");
  }

  lemma PalindromeMatches()
    ensures Matches(PalindromeExample, MockTriggers[4])
    ensures !Matches(PalindromeExample, MockTriggers[0])
    ensures !Matches(PalindromeExample, MockTriggers[1])
    ensures !Matches(PalindromeExample, MockTriggers[2])
    ensures !Matches(PalindromeExample, MockTriggers[3])
  {
    PalindromeLowered();
    TriggersLowerCase();
    PalindromeSearch(Lower(PalindromeExample));
  }

  lemma PalindromePrompt()
    ensures FirstMatch(MockTriggers, PalindromeExample) == ExampleOutcomes[4]
  {
    PalindromeMatches();
    FirstMatchOfEight(MockTriggers, PalindromeExample);
  }

  // Create a decorator that measures execution time of functions

  lemma DecoratorPiece0(p: string, l: string)
    requires p == "Create a " && l == "create a "
    ensures Lower(p) == l
  {
  }

  lemma DecoratorPiece1(p: string, l: string)
    requires p == "decorator " && l == "decorator "
    ensures Lower(p) == l
  {
  }

  lemma DecoratorPiece2(p: string, l: string)
    requires p == "that " && l == "that "
    ensures Lower(p) == l
  {
  }

  lemma DecoratorPiece3(p: string, l: string)
    requires p == "measures " && l == "measures "
    ensures Lower(p) == l
  {
  }

  lemma DecoratorPiece4(p: string, l: string)
    requires p == "execution " && l == "execution "
    ensures Lower(p) == l
  {
  }

  lemma DecoratorPiece5(p: string, l: string)
    requires p == "time of " && l == "time of "
    ensures Lower(p) == l
  {
  }

  lemma DecoratorPiece6(p: string, l: string)
    requires p == "functions" && l == "functions"
    ensures Lower(p) == l
  {
  }

  lemma DecoratorLowered()
    ensures Lower(DecoratorExample) == "create a " + "decorator " + "that " + "measures " + "execution " + "time of " + "functions"
  {
    DecoratorPiece0("Create a ", "create a ");
    DecoratorPiece1("decorator ", "decorator ");
    DecoratorPiece2("that ", "that ");
    DecoratorPiece3("measures ", "measures ");
    DecoratorPiece4("execution ", "execution ");
    DecoratorPiece5("time of ", "time of ");
    DecoratorPiece6("functions", "functions");
    LowerAppend("Create a ", "decorator ");
    LowerAppend("Create a " + "decorator ", "that ");
    LowerAppend("Create a " + "decorator " + "that ", "measures ");
    LowerAppend("Create a " + "decorator " + "that " + "measures ", "execution ");
    LowerAppend("Create a " + "decorator " + "that " + "measures " + "execution ", "time of ");
    LowerAppend("Create a " + "decorator " + "that " + "measures " + "execution " + "time of ", "functions");
  }

  lemma DecoratorPiece0Facts(l: string)
    requires l == "create a "
    ensures |l| >= 2 && l[|l| - 2] == 'a' && l[|l| - 1] == ' '
    ensures 'b' !in l && 'j' !in l && 'l' !in l
    ensures LacksTrigram(l, 'e', ' ', 'd')
  {
  }

  lemma DecoratorPiece1Facts(l: string)
    requires l == "decorator "
    ensures |l| >= 2 && l[0] == 'd' && l[1] == 'e' && l[|l| - 2] == 'r' && l[|l| - 1] == ' '
    ensures 'b' !in l && 'j' !in l && 'l' !in l
    ensures LacksTrigram(l, 'e', ' ', 'd')
  {
  }

  lemma DecoratorPiece2Facts(l: string)
    requires l == "that "
    ensures |l| >= 2 && l[0] == 't' && l[1] == 'h' && l[|l| - 2] == 't' && l[|l| - 1] == ' '
    ensures 'b' !in l && 'j' !in l && 'l' !in l
    ensures LacksTrigram(l, 'e', ' ', 'd')
  {
  }

  lemma DecoratorPiece3Facts(l: string)
    requires l == "measures "
    ensures |l| >= 2 && l[0] == 'm' && l[1] == 'e' && l[|l| - 2] == 's' && l[|l| - 1] == ' '
    ensures 'b' !in l && 'j' !in l && 'l' !in l
    ensures LacksTrigram(l, 'e', ' ', 'd')
  {
  }

  lemma DecoratorPiece4Facts(l: string)
    requires l == "execution "
    ensures |l| >= 2 && l[0] == 'e' && l[1] == 'x' && l[|l| - 2] == 'n' && l[|l| - 1] == ' '
    ensures 'b' !in l && 'j' !in l && 'l' !in l
    ensures LacksTrigram(l, 'e', ' ', 'd')
  {
  }

  lemma DecoratorPiece5Facts(l: string)
    requires l == "time of "
    ensures |l| >= 2 && l[0] == 't' && l[1] == 'i' && l[|l| - 2] == 'f' && l[|l| - 1] == ' '
    ensures 'b' !in l && 'j' !in l && 'l' !in l
    ensures LacksTrigram(l, 'e', ' ', 'd')
  {
  }

  lemma DecoratorPiece6Facts(l: string)
    requires l == "functions"
    ensures |l| >= 2 && l[0] == 'f' && l[1] == 'u'
    ensures 'b' !in l && 'j' !in l && 'l' !in l
    ensures LacksTrigram(l, 'e', ' ', 'd')
  {
  }

  lemma {:induction false} DecoratorMissesByLetterFrom(l0: string, l1: string, l2: string, l3: string, l4: string, l5: string, l6: string)
    requires 'b' !in l0 && 'j' !in l0 && 'l' !in l0
    requires 'b' !in l1 && 'j' !in l1 && 'l' !in l1
    requires 'b' !in l2 && 'j' !in l2 && 'l' !in l2
    requires 'b' !in l3 && 'j' !in l3 && 'l' !in l3
    requires 'b' !in l4 && 'j' !in l4 && 'l' !in l4
    requires 'b' !in l5 && 'j' !in l5 && 'l' !in l5
    requires 'b' !in l6 && 'j' !in l6 && 'l' !in l6
    ensures !Contains(l0 + l1 + l2 + l3 + l4 + l5 + l6, MockTriggers[0])
    ensures !Contains(l0 + l1 + l2 + l3 + l4 + l5 + l6, MockTriggers[1])
    ensures !Contains(l0 + l1 + l2 + l3 + l4 + l5 + l6, MockTriggers[2])
    ensures !Contains(l0 + l1 + l2 + l3 + l4 + l5 + l6, MockTriggers[3])
    ensures !Contains(l0 + l1 + l2 + l3 + l4 + l5 + l6, MockTriggers[4])
    ensures !Contains(l0 + l1 + l2 + l3 + l4 + l5 + l6, MockTriggers[6])
    ensures !Contains(l0 + l1 + l2 + l3 + l4 + l5 + l6, MockTriggers[7])
  {
    MissingChar(l0 + l1 + l2 + l3 + l4 + l5 + l6, MockTriggers[0], 5);  // 'l'
    MissingChar(l0 + l1 + l2 + l3 + l4 + l5 + l6, MockTriggers[1], 7);  // 'l'
    MissingChar(l0 + l1 + l2 + l3 + l4 + l5 + l6, MockTriggers[2], 2);  // 'l'
    MissingChar(l0 + l1 + l2 + l3 + l4 + l5 + l6, MockTriggers[3], 7);  // 'j'
    MissingChar(l0 + l1 + l2 + l3 + l4 + l5 + l6, MockTriggers[4], 2);  // 'l'
    MissingChar(l0 + l1 + l2 + l3 + l4 + l5 + l6, MockTriggers[6], 13);  // 'l'
    MissingChar(l0 + l1 + l2 + l3 + l4 + l5 + l6, MockTriggers[7], 2);  // 'b'
  }

  lemma {:induction false} DecoratorMissesByTrigramFrom(l0: string, l1: string, l2: string, l3: string, l4: string, l5: string, l6: string)
    requires |l0| >= 2 && l0[|l0| - 2] == 'a' && l0[|l0| - 1] == ' ' && LacksTrigram(l0, 'e', ' ', 'd')
    requires |l1| >= 2 && l1[0] == 'd' && l1[1] == 'e' && l1[|l1| - 2] == 'r' && l1[|l1| - 1] == ' ' && LacksTrigram(l1, 'e', ' ', 'd')
    requires |l2| >= 2 && l2[0] == 't' && l2[1] == 'h' && l2[|l2| - 2] == 't' && l2[|l2| - 1] == ' ' && LacksTrigram(l2, 'e', ' ', 'd')
    requires |l3| >= 2 && l3[0] == 'm' && l3[1] == 'e' && l3[|l3| - 2] == 's' && l3[|l3| - 1] == ' ' && LacksTrigram(l3, 'e', ' ', 'd')
    requires |l4| >= 2 && l4[0] == 'e' && l4[1] == 'x' && l4[|l4| - 2] == 'n' && l4[|l4| - 1] == ' ' && LacksTrigram(l4, 'e', ' ', 'd')
    requires |l5| >= 2 && l5[0] == 't' && l5[1] == 'i' && l5[|l5| - 2] == 'f' && l5[|l5| - 1] == ' ' && LacksTrigram(l5, 'e', ' ', 'd')
    requires |l6| >= 2 && l6[0] == 'f' && l6[1] == 'u' && LacksTrigram(l6, 'e', ' ', 'd')
    ensures !Contains(l0 + l1 + l2 + l3 + l4 + l5 + l6, MockTriggers[5])
  {
    MissesTrigram7(l0, l1, l2, l3, l4, l5, l6, 'e', ' ', 'd', MockTriggers[5], 13);
  }

  /** Which triggers the lowered prompt contains. */
  lemma DecoratorSearch(s: string)
    requires s == "create a " + "decorator " + "that " + "measures " + "execution " + "time of " + "functions"
    ensures !Contains(s, MockTriggers[0])
    ensures !Contains(s, MockTriggers[1])
    ensures !Contains(s, MockTriggers[2])
    ensures !Contains(s, MockTriggers[3])
    ensures !Contains(s, MockTriggers[4])
    ensures !Contains(s, MockTriggers[5])
    ensures !Contains(s, MockTriggers[6])
    ensures !Contains(s, MockTriggers[7])
  {
    DecoratorPiece0Facts("create a ");
    DecoratorPiece1Facts("decorator ");
    DecoratorPiece2Facts("that ");
    DecoratorPiece3Facts("measures ");
    DecoratorPiece4Facts("execution ");
    DecoratorPiece5Facts("time of ");
    DecoratorPiece6Facts("functions");
    DecoratorMissesByLetterFrom("create a ", "decorator ", "that ", "measures ", "execution ", "time of ", "functions");
    DecoratorMissesByTrigramFrom("create a ", "decorator ", "that ", "measures ", "execution ", "time of ", "functions");
  }

  lemma DecoratorMatches()
    ensures !Matches(DecoratorExample, MockTriggers[0])
    ensures !Matches(DecoratorExample, MockTriggers[1])
    ensures !Matches(DecoratorExample, MockTriggers[2])
    ensures !Matches(DecoratorExample, MockTriggers[3])
    ensures !Matches(DecoratorExample, MockTriggers[4])
    ensures !Matches(DecoratorExample, MockTriggers[5])
    ensures !Matches(DecoratorExample, MockTriggers[6])
    ensures !Matches(DecoratorExample, MockTriggers[7])
  {
    DecoratorLowered();
    TriggersLowerCase();
    DecoratorSearch(Lower(DecoratorExample));
  }

  lemma DecoratorPrompt()
    ensures FirstMatch(MockTriggers, DecoratorExample) == ExampleOutcomes[5]
  {
    DecoratorMatches();
    FirstMatchOfEight(MockTriggers, DecoratorExample);
  }

  // Write a function to merge two sorted lists

  lemma MergeListsPiece0(p: string, l: string)
    requires p == "Write a " && l == "write a "
    ensures Lower(p) == l
  {
  }

  lemma MergeListsPiece1(p: string, l: string)
    requires p == "function to " && l == "function to "
    ensures Lower(p) == l
  {
  }

  lemma MergeListsPiece2(p: string, l: string)
    requires p == "merge two " && l == "merge two "
    ensures Lower(p) == l
  {
  }

  lemma MergeListsPiece3(p: string, l: string)
    requires p == "sorted lists" && l == "sorted lists"
    ensures Lower(p) == l
  {
  }

  lemma MergeListsLowered()
    ensures Lower(MergeListsExample) == "write a " + "function to " + "merge two " + "sorted lists"
  {
    MergeListsPiece0("Write a ", "write a ");
    MergeListsPiece1("function to ", "function to ");
    MergeListsPiece2("merge two ", "merge two ");
    MergeListsPiece3("sorted lists", "sorted lists");
    LowerAppend("Write a ", "function to ");
    LowerAppend("Write a " + "function to ", "merge two ");
    LowerAppend("Write a " + "function to " + "merge two ", "sorted lists");
  }

  lemma MergeListsPiece0Facts(l: string)
    requires l == "write a "
    ensures |l| >= 2 && l[|l| - 2] == 'a' && l[|l| - 1] == ' '
    ensures 'b' !in l && 'j' !in l && 'p' !in l && 'x' !in l
    ensures LacksTrigram(l, 'c', 'a', 'l') && LacksTrigram(l, 'e', ' ', 's') && LacksTrigram(l, 'r', 't', ' ')
  {
  }

  lemma MergeListsPiece1Facts(l: string)
    requires l == "function to "
    ensures |l| >= 2 && l[0] == 'f' && l[1] == 'u' && l[|l| - 2] == 'o' && l[|l| - 1] == ' '
    ensures 'b' !in l && 'j' !in l && 'p' !in l && 'x' !in l
    ensures LacksTrigram(l, 'c', 'a', 'l') && LacksTrigram(l, 'e', ' ', 's') && LacksTrigram(l, 'r', 't', ' ')
  {
  }

  lemma MergeListsPiece2Facts(l: string)
    requires l == "merge two "
    ensures |l| >= 2 && l[0] == 'm' && l[1] == 'e' && l[|l| - 2] == 'o' && l[|l| - 1] == ' '
    ensures 'b' !in l && 'j' !in l && 'p' !in l && 'x' !in l
    ensures LacksTrigram(l, 'c', 'a', 'l') && LacksTrigram(l, 'e', ' ', 's') && LacksTrigram(l, 'r', 't', ' ')
  {
  }

  lemma MergeListsPiece3Facts(l: string)
    requires l == "sorted lists"
    ensures |l| >= 2 && l[0] == 's' && l[1] == 'o'
    ensures 'b' !in l && 'j' !in l && 'p' !in l && 'x' !in l
    ensures LacksTrigram(l, 'c', 'a', 'l') && LacksTrigram(l, 'e', ' ', 's') && LacksTrigram(l, 'r', 't', ' ')
  {
  }

  lemma {:induction false} MergeListsMissesByLetterFrom(l0: string, l1: string, l2: string, l3: string)
    requires 'b' !in l0 && 'j' !in l0 && 'p' !in l0 && 'x' !in l0
    requires 'b' !in l1 && 'j' !in l1 && 'p' !in l1 && 'x' !in l1
    requires 'b' !in l2 && 'j' !in l2 && 'p' !in l2 && 'x' !in l2
    requires 'b' !in l3 && 'j' !in l3 && 'p' !in l3 && 'x' !in l3
    ensures !Contains(l0 + l1 + l2 + l3, MockTriggers[1])
    ensures !Contains(l0 + l1 + l2 + l3, MockTriggers[3])
    ensures !Contains(l0 + l1 + l2 + l3, MockTriggers[4])
    ensures !Contains(l0 + l1 + l2 + l3, MockTriggers[5])
    ensures !Contains(l0 + l1 + l2 + l3, MockTriggers[7])
  {
    MissingChar(l0 + l1 + l2 + l3, MockTriggers[1], 18);  // 'b'
    MissingChar(l0 + l1 + l2 + l3, MockTriggers[3], 7);  // 'j'
    MissingChar(l0 + l1 + l2 + l3, MockTriggers[4], 0);  // 'p'
    MissingChar(l0 + l1 + l2 + l3, MockTriggers[5], 1);  // 'x'
    MissingChar(l0 + l1 + l2 + l3, MockTriggers[7], 2);  // 'b'
  }

  lemma {:induction false} MergeListsMissesByTrigramFrom(l0: string, l1: string, l2: string, l3: string)
    requires |l0| >= 2 && l0[|l0| - 2] == 'a' && l0[|l0| - 1] == ' ' && LacksTrigram(l0, 'r', 't', ' ') && LacksTrigram(l0, 'c', 'a', 'l') && LacksTrigram(l0, 'e', ' ', 's')
    requires |l1| >= 2 && l1[0] == 'f' && l1[1] == 'u' && l1[|l1| - 2] == 'o' && l1[|l1| - 1] == ' ' && LacksTrigram(l1, 'r', 't', ' ') && LacksTrigram(l1, 'c', 'a', 'l') && LacksTrigram(l1, 'e', ' ', 's')
    requires |l2| >= 2 && l2[0] == 'm' && l2[1] == 'e' && l2[|l2| - 2] == 'o' && l2[|l2| - 1] == ' ' && LacksTrigram(l2, 'r', 't', ' ') && LacksTrigram(l2, 'c', 'a', 'l') && LacksTrigram(l2, 'e', ' ', 's')
    requires |l3| >= 2 && l3[0] == 's' && l3[1] == 'o' && LacksTrigram(l3, 'r', 't', ' ') && LacksTrigram(l3, 'c', 'a', 'l') && LacksTrigram(l3, 'e', ' ', 's')
    ensures !Contains(l0 + l1 + l2 + l3, MockTriggers[0])
    ensures !Contains(l0 + l1 + l2 + l3, MockTriggers[2])
    ensures !Contains(l0 + l1 + l2 + l3, MockTriggers[6])
  {
    MissesTrigram4(l0, l1, l2, l3, 'r', 't', ' ', MockTriggers[0], 2);
    MissesTrigram4(l0, l1, l2, l3, 'c', 'a', 'l', MockTriggers[2], 0);
    MissesTrigram4(l0, l1, l2, l3, 'e', ' ', 's', MockTriggers[6], 4);
  }

  /** Which triggers the lowered prompt contains. */
  lemma MergeListsSearch(s: string)
    requires s == "write a " + "function to " + "merge two " + "sorted lists"
    ensures !Contains(s, MockTriggers[0])
    ensures !Contains(s, MockTriggers[1])
    ensures !Contains(s, MockTriggers[2])
    ensures !Contains(s, MockTriggers[3])
    ensures !Contains(s, MockTriggers[4])
    ensures !Contains(s, MockTriggers[5])
    ensures !Contains(s, MockTriggers[6])
    ensures !Contains(s, MockTriggers[7])
  {
    MergeListsPiece0Facts("write a ");
    MergeListsPiece1Facts("function to ");
    MergeListsPiece2Facts("merge two ");
    MergeListsPiece3Facts("sorted lists");
    MergeListsMissesByLetterFrom("write a ", "function to ", "merge two ", "sorted lists");
    MergeListsMissesByTrigramFrom("write a ", "function to ", "merge two ", "sorted lists");
  }

  lemma MergeListsMatches()
    ensures !Matches(MergeListsExample, MockTriggers[0])
    ensures !Matches(MergeListsExample, MockTriggers[1])
    ensures !Matches(MergeListsExample, MockTriggers[2])
    ensures !Matches(MergeListsExample, MockTriggers[3])
    ensures !Matches(MergeListsExample, MockTriggers[4])
    ensures !Matches(MergeListsExample, MockTriggers[5])
    ensures !Matches(MergeListsExample, MockTriggers[6])
    ensures !Matches(MergeListsExample, MockTriggers[7])
  {
    MergeListsLowered();
    TriggersLowerCase();
    MergeListsSearch(Lower(MergeListsExample));
  }

  lemma MergeListsPrompt()
    ensures FirstMatch(MockTriggers, MergeListsExample) == ExampleOutcomes[6]
  {
    MergeListsMatches();
    FirstMatchOfEight(MockTriggers, MergeListsExample);
  }

  // Generate code for a simple web scraper using requests

  lemma WebScraperPiece0(p: string, l: string)
    requires p == "Generate " && l == "generate "
    ensures Lower(p) == l
  {
  }

  lemma WebScraperPiece1(p: string, l: string)
    requires p == "code for a " && l == "code for a "
    ensures Lower(p) == l
  {
  }

  lemma WebScraperPiece2(p: string, l: string)
    requires p == "simple " && l == "simple "
    ensures Lower(p) == l
  {
  }

  lemma WebScraperPiece3(p: string, l: string)
    requires p == "web scraper" && l == "web scraper"
    ensures Lower(p) == l
  {
  }

  lemma WebScraperPiece4(p: string, l: string)
    requires p == " using " && l == " using "
    ensures Lower(p) == l
  {
  }

  lemma WebScraperPiece5(p: string, l: string)
    requires p == "requests" && l == "requests"
    ensures Lower(p) == l
  {
  }

  lemma WebScraperLowered()
    ensures Lower(WebScraperExample) == "generate " + "code for a " + "simple " + "web scraper" + " using " + "requests"
  {
    WebScraperPiece0("Generate ", "generate ");
    WebScraperPiece1("code for a ", "code for a ");
    WebScraperPiece2("simple ", "simple ");
    WebScraperPiece3("web scraper", "web scraper");
    WebScraperPiece4(" using ", " using ");
    WebScraperPiece5("requests", "requests");
    LowerAppend("Generate ", "code for a ");
    LowerAppend("Generate " + "code for a ", "simple ");
    LowerAppend("Generate " + "code for a " + "simple ", "web scraper");
    LowerAppend("Generate " + "code for a " + "simple " + "web scraper", " using ");
    LowerAppend("Generate " + "code for a " + "simple " + "web scraper" + " using ", "requests");
  }

  lemma WebScraperPiece0Facts(l: string)
    requires l == "generate "
    ensures |l| >= 2 && l[|l| - 2] == 'e' && l[|l| - 1] == ' '
    ensures 'j' !in l && 'x' !in l
    ensures LacksTrigram(l, 'c', 'a', 'l') && LacksTrigram(l, 'p', 'a', 'l') && LacksTrigram(l, 's', 'e', 'c') && LacksTrigram(l, 's', 'o', 'r')
  {
  }

  lemma WebScraperPiece1Facts(l: string)
    requires l == "code for a "
    ensures |l| >= 2 && l[0] == 'c' && l[1] == 'o' && l[|l| - 2] == 'a' && l[|l| - 1] == ' '
    ensures 'j' !in l && 'x' !in l
    ensures LacksTrigram(l, 'c', 'a', 'l') && LacksTrigram(l, 'p', 'a', 'l') && LacksTrigram(l, 's', 'e', 'c') && LacksTrigram(l, 's', 'o', 'r')
  {
  }

  lemma WebScraperPiece2Facts(l: string)
    requires l == "simple "
    ensures |l| >= 2 && l[0] == 's' && l[1] == 'i' && l[|l| - 2] == 'e' && l[|l| - 1] == ' '
    ensures 'j' !in l && 'x' !in l
    ensures LacksTrigram(l, 'c', 'a', 'l') && LacksTrigram(l, 'p', 'a', 'l') && LacksTrigram(l, 's', 'e', 'c') && LacksTrigram(l, 's', 'o', 'r')
  {
  }

  lemma WebScraperPiece3Facts(l: string)
    requires l == "web scraper"
    ensures |l| >= 2 && l[0] == 'w' && l[1] == 'e' && l[|l| - 2] == 'e' && l[|l| - 1] == 'r'
    ensures 'j' !in l && 'x' !in l
    ensures LacksTrigram(l, 'c', 'a', 'l') && LacksTrigram(l, 'p', 'a', 'l') && LacksTrigram(l, 's', 'e', 'c') && LacksTrigram(l, 's', 'o', 'r')
  {
  }

  lemma WebScraperPiece4Facts(l: string)
    requires l == " using "
    ensures |l| >= 2 && l[0] == ' ' && l[1] == 'u' && l[|l| - 2] == 'g' && l[|l| - 1] == ' '
    ensures 'j' !in l && 'x' !in l
    ensures LacksTrigram(l, 'c', 'a', 'l') && LacksTrigram(l, 'p', 'a', 'l') && LacksTrigram(l, 's', 'e', 'c') && LacksTrigram(l, 's', 'o', 'r')
  {
  }

  lemma WebScraperPiece5Facts(l: string)
    requires l == "requests"
    ensures |l| >= 2 && l[0] == 'r' && l[1] == 'e'
    ensures 'j' !in l && 'x' !in l
    ensures LacksTrigram(l, 'c', 'a', 'l') && LacksTrigram(l, 'p', 'a', 'l') && LacksTrigram(l, 's', 'e', 'c') && LacksTrigram(l, 's', 'o', 'r')
  {
  }

  lemma {:induction false} WebScraperMissesByLetterFrom(l0: string, l1: string, l2: string, l3: string, l4: string, l5: string)
    requires 'j' !in l0 && 'x' !in l0
    requires 'j' !in l1 && 'x' !in l1
    requires 'j' !in l2 && 'x' !in l2
    requires 'j' !in l3 && 'x' !in l3
    requires 'j' !in l4 && 'x' !in l4
    requires 'j' !in l5 && 'x' !in l5
    ensures !Contains(l0 + l1 + l2 + l3 + l4 + l5, MockTriggers[3])
    ensures !Contains(l0 + l1 + l2 + l3 + l4 + l5, MockTriggers[5])
  {
    MissingChar(l0 + l1 + l2 + l3 + l4 + l5, MockTriggers[3], 7);  // 'j'
    MissingChar(l0 + l1 + l2 + l3 + l4 + l5, MockTriggers[5], 1);  // 'x'
  }

  lemma {:induction false} WebScraperHitsFrom(l0: string, l1: string, l2: string, l3: string, l4: string, l5: string)
    ensures Contains(l0 + l1 + l2 + l3 + l4 + l5, l3)
  {
    ContainsEnd(l0 + l1 + l2, l3);
    ContainsExtend(l0 + l1 + l2 + l3, l3, l4);
    ContainsExtend(l0 + l1 + l2 + l3 + l4, l3, l5);
  }

  lemma {:induction false} WebScraperMissesByTrigramFrom(l0: string, l1: string, l2: string, l3: string, l4: string, l5: string)
    requires |l0| >= 2 && l0[|l0| - 2] == 'e' && l0[|l0| - 1] == ' ' && LacksTrigram(l0, 's', 'o', 'r') && LacksTrigram(l0, 's', 'e', 'c') && LacksTrigram(l0, 'c', 'a', 'l')
    requires |l1| >= 2 && l1[0] == 'c' && l1[1] == 'o' && l1[|l1| - 2] == 'a' && l1[|l1| - 1] == ' ' && LacksTrigram(l1, 's', 'o', 'r') && LacksTrigram(l1, 's', 'e', 'c') && LacksTrigram(l1, 'c', 'a', 'l')
    requires |l2| >= 2 && l2[0] == 's' && l2[1] == 'i' && l2[|l2| - 2] == 'e' && l2[|l2| - 1] == ' ' && LacksTrigram(l2, 's', 'o', 'r') && LacksTrigram(l2, 's', 'e', 'c') && LacksTrigram(l2, 'c', 'a', 'l')
    requires |l3| >= 2 && l3[0] == 'w' && l3[1] == 'e' && l3[|l3| - 2] == 'e' && l3[|l3| - 1] == 'r' && LacksTrigram(l3, 's', 'o', 'r') && LacksTrigram(l3, 's', 'e', 'c') && LacksTrigram(l3, 'c', 'a', 'l')
    requires |l4| >= 2 && l4[0] == ' ' && l4[1] == 'u' && l4[|l4| - 2] == 'g' && l4[|l4| - 1] == ' ' && LacksTrigram(l4, 's', 'o', 'r') && LacksTrigram(l4, 's', 'e', 'c') && LacksTrigram(l4, 'c', 'a', 'l')
    requires |l5| >= 2 && l5[0] == 'r' && l5[1] == 'e' && LacksTrigram(l5, 's', 'o', 'r') && LacksTrigram(l5, 's', 'e', 'c') && LacksTrigram(l5, 'c', 'a', 'l')
    ensures !Contains(l0 + l1 + l2 + l3 + l4 + l5, MockTriggers[0])
    ensures !Contains(l0 + l1 + l2 + l3 + l4 + l5, MockTriggers[1])
    ensures !Contains(l0 + l1 + l2 + l3 + l4 + l5, MockTriggers[2])
  {
    MissesTrigram6(l0, l1, l2, l3, l4, l5, 's', 'o', 'r', MockTriggers[0], 0);
    MissesTrigram6(l0, l1, l2, l3, l4, l5, 's', 'e', 'c', MockTriggers[1], 0);
    MissesTrigram6(l0, l1, l2, l3, l4, l5, 'c', 'a', 'l', MockTriggers[2], 0);
  }

  lemma {:induction false} WebScraperMissesLaterByTrigramFrom(l0: string, l1: string, l2: string, l3: string, l4: string, l5: string)
    requires |l0| >= 2 && l0[|l0| - 2] == 'e' && l0[|l0| - 1] == ' ' && LacksTrigram(l0, 's', 'o', 'r') && LacksTrigram(l0, 'p', 'a', 'l')
    requires |l1| >= 2 && l1[0] == 'c' && l1[1] == 'o' && l1[|l1| - 2] == 'a' && l1[|l1| - 1] == ' ' && LacksTrigram(l1, 's', 'o', 'r') && LacksTrigram(l1, 'p', 'a', 'l')
    requires |l2| >= 2 && l2[0] == 's' && l2[1] == 'i' && l2[|l2| - 2] == 'e' && l2[|l2| - 1] == ' ' && LacksTrigram(l2, 's', 'o', 'r') && LacksTrigram(l2, 'p', 'a', 'l')
    requires |l3| >= 2 && l3[0] == 'w' && l3[1] == 'e' && l3[|l3| - 2] == 'e' && l3[|l3| - 1] == 'r' && LacksTrigram(l3, 's', 'o', 'r') && LacksTrigram(l3, 'p', 'a', 'l')
    requires |l4| >= 2 && l4[0] == ' ' && l4[1] == 'u' && l4[|l4| - 2] == 'g' && l4[|l4| - 1] == ' ' && LacksTrigram(l4, 's', 'o', 'r') && LacksTrigram(l4, 'p', 'a', 'l')
    requires |l5| >= 2 && l5[0] == 'r' && l5[1] == 'e' && LacksTrigram(l5, 's', 'o', 'r') && LacksTrigram(l5, 'p', 'a', 'l')
    ensures !Contains(l0 + l1 + l2 + l3 + l4 + l5, MockTriggers[4])
    ensures !Contains(l0 + l1 + l2 + l3 + l4 + l5, MockTriggers[6])
  {
    MissesTrigram6(l0, l1, l2, l3, l4, l5, 'p', 'a', 'l', MockTriggers[4], 0);
    MissesTrigram6(l0, l1, l2, l3, l4, l5, 's', 'o', 'r', MockTriggers[6], 6);
  }

  /** Which triggers the lowered prompt contains. */
  lemma WebScraperSearch(s: string)
    requires s == "generate " + "code for a " + "simple " + "web scraper" + " using " + "requests"
    ensures Contains(s, MockTriggers[7])
    ensures !Contains(s, MockTriggers[0])
    ensures !Contains(s, MockTriggers[1])
    ensures !Contains(s, MockTriggers[2])
    ensures !Contains(s, MockTriggers[3])
    ensures !Contains(s, MockTriggers[4])
    ensures !Contains(s, MockTriggers[5])
    ensures !Contains(s, MockTriggers[6])
  {
    WebScraperPiece0Facts("generate ");
    WebScraperPiece1Facts("code for a ");
    WebScraperPiece2Facts("simple ");
    WebScraperPiece3Facts("web scraper");
    WebScraperPiece4Facts(" using ");
    WebScraperPiece5Facts("requests");
    WebScraperMissesByLetterFrom("generate ", "code for a ", "simple ", "web scraper", " using ", "requests");
    WebScraperMissesByTrigramFrom("generate ", "code for a ", "simple ", "web scraper", " using ", "requests");
    WebScraperMissesLaterByTrigramFrom("generate ", "code for a ", "simple ", "web scraper", " using ", "requests");
    WebScraperHitsFrom("generate ", "code for a ", "simple ", "web scraper", " using ", "requests");
  }

  lemma WebScraperMatches()
    ensures Matches(WebScraperExample, MockTriggers[7])
    ensures !Matches(WebScraperExample, MockTriggers[0])
    ensures !Matches(WebScraperExample, MockTriggers[1])
    ensures !Matches(WebScraperExample, MockTriggers[2])
    ensures !Matches(WebScraperExample, MockTriggers[3])
    ensures !Matches(WebScraperExample, MockTriggers[4])
    ensures !Matches(WebScraperExample, MockTriggers[5])
    ensures !Matches(WebScraperExample, MockTriggers[6])
  {
    WebScraperLowered();
    TriggersLowerCase();
    WebScraperSearch(Lower(WebScraperExample));
  }

  lemma WebScraperPrompt()
    ensures FirstMatch(MockTriggers, WebScraperExample) == ExampleOutcomes[7]
  {
    WebScraperMatches();
    FirstMatchOfEight(MockTriggers, WebScraperExample);
  }

  /** FirstMatch over a table of eight triggers, written out trigger by trigger. */
  lemma FirstMatchOfEight(ts: seq<string>, x: string)
    requires |ts| == 8
    ensures FirstMatch(ts, x) ==
      if Matches(x, ts[0]) then Some(0)
      else if Matches(x, ts[1]) then Some(1)
      else if Matches(x, ts[2]) then Some(2)
      else if Matches(x, ts[3]) then Some(3)
      else if Matches(x, ts[4]) then Some(4)
      else if Matches(x, ts[5]) then Some(5)
      else if Matches(x, ts[6]) then Some(6)
      else if Matches(x, ts[7]) then Some(7)
      else None
  {
  }

  /** Which mock entry each example prompt selects. */
  lemma ExamplePromptOutcomes()
    ensures forall k :: 0 <= k < |ExamplePrompts| ==> FirstMatch(MockTriggers, ExamplePrompts[k]) == ExampleOutcomes[k]
  {
    forall k | 0 <= k < |ExamplePrompts|
      ensures FirstMatch(MockTriggers, ExamplePrompts[k]) == ExampleOutcomes[k]
    {
      ExampleOutcome(k);
    }
  }

  lemma ExampleOutcome(k: nat)
    requires k < |ExamplePrompts|
    ensures FirstMatch(MockTriggers, ExamplePrompts[k]) == ExampleOutcomes[k]
  {
    if k == 0 {
      SortsDictionariesPrompt();
    } else if k == 1 {
      SecondLargestPrompt();
    } else if k == 2 {
      CalculatorPrompt();
    } else if k == 3 {
      CsvToJsonPrompt();
    } else if k == 4 {
      PalindromePrompt();
    } else if k == 5 {
      DecoratorPrompt();
    } else if k == 6 {
      MergeListsPrompt();
    } else {
      WebScraperPrompt();
    }
  }

  /** The code handleTranslate passes to simulateStreaming for each example
      prompt, whatever the mock code strings are: the code of the second, fifth and eighth mock
      entries for the second, fifth and eighth prompts, the fallback stub
      for the other five. */
  lemma ExampleTranslation(codes: seq<string>, k: nat)
    requires |codes| == |MockTriggers| && k < |ExamplePrompts|
    ensures TranslatedCode(MockTable(codes), ExamplePrompts[k]) ==
      match ExampleOutcomes[k]
      case Some(m) => codes[m]
      case None => FallbackCode(ExamplePrompts[k])
  {
    ExampleOutcome(k);
  }
}
