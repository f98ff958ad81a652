/**
 * How `OllamaAi.request` compares a tracked request's key with the key of a
 * new request (`getKeyMatch`, src/helpers/ollamaHelpers.ts). Keys are written
 * `{name}-{url}`, but the name part is whatever precedes the FIRST '-', so an
 * agent called "fact-check" is compared as "fact".
 */
module KeyRules {

  /**
   * `key.split('-')[0]`: the text before the first '-', or the whole key
   * when it has none.
   */
  function NamePart(key: string): (name: string)
    ensures name <= key
    ensures '-' !in name
    ensures |name| < |key| ==> key[|name|] == '-'
  {
    if key == [] || key[0] == '-' then [] else [key[0]] + NamePart(key[1..])
  }

  datatype KeyMatch = Full | Partial | NoMatch

  /** `getKeyMatch(tracked)` for a request carrying `key`. */
  function GetKeyMatch(tracked: string, key: string): KeyMatch
  {
    if tracked == key then Full
    else if NamePart(tracked) == NamePart(key) then Partial
    else NoMatch
  }

  /**
   * The three outcomes of `getKeyMatch`: `full` exactly for identical keys,
   * `partial` exactly for different keys with the same text before their
   * first '-', where that text is the longest '-'-free prefix of each key.
   */
  lemma KeyMatchMeaning(tracked: string, key: string, name: string)
    requires '-' !in name
    requires name <= tracked && (|name| == |tracked| || tracked[|name|] == '-')
    ensures GetKeyMatch(tracked, key) == Full <==> tracked == key
    ensures GetKeyMatch(tracked, key) == Partial <==>
      tracked != key && name <= key && (|name| == |key| || key[|name|] == '-')
  {
  }

  /** A '-'-free prefix followed by '-' or the end of the key is its name part. */
  lemma NamePartUnique(key: string, name: string)
    requires '-' !in name
    requires name <= key && (|name| == |key| || key[|name|] == '-')
    ensures NamePart(key) == name
  {
  }

  /**
   * A key built as `{name}-{url}` has the same name part as `name` alone:
   * the url never matters, and a '-' inside the name cuts it short.
   */
  lemma {:induction false} NamePartOfJoined(name: string, url: string)
    ensures NamePart(name + "-" + url) == NamePart(name)
  {
    if name != [] && name[0] != '-' {
      assert (name + "-" + url)[1..] == name[1..] + "-" + url;
      NamePartOfJoined(name[1..], url);
    }
  }
}
