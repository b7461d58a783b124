// Redaction of values before they reach a result row or an execution log
// (backend/execution_engine.py, sanitize_payload and redact_text).
module Redaction {
  import opened Options
  import opened Text

  // A decoded JSON value. A dictionary keeps its insertion order, as Python's does.
  datatype Json =
    | Null
    | Bool(b: bool)
    | Number(n: int)
    | Str(s: string)
    | List(items: seq<Json>)
    | Dict(entries: seq<Entry>)

  datatype Entry = Entry(key: string, value: Json)

  const MARK: string := "[REDACTED]"

  const SENSITIVE_WORDS: seq<string> := [
    "password", "secret", "token", "api key", "authorization", "bearer",
    "private_key", "access_token", "refresh_token"
  ]

  predicate OccursAt(text: string, word: string, i: int) {
    0 <= i <= |text| - |word| && text[i..i + |word|] == word
  }

  // Python's `word in text`.
  predicate Contains(text: string, word: string) {
    exists i | 0 <= i <= |text| :: OccursAt(text, word, i)
  }

  predicate Sensitive(text: string) {
    exists w | w in SENSITIVE_WORDS :: Contains(Lower(text), w)
  }

  function RedactText(text: string): string {
    if Sensitive(text) then MARK else text
  }

  // redact_text on an optional value.
  function RedactOptional(text: Option<string>): Option<string> {
    match text
    case None => None
    case Some(t) => Some(RedactText(t))
  }

  // Assignment to a dictionary: an existing key keeps its place and takes the new value.
  function Put(es: seq<Entry>, key: string, value: Json): seq<Entry> {
    if es == [] then [Entry(key, value)]
    else if es[0].key == key then [Entry(key, value)] + es[1..]
    else [es[0]] + Put(es[1..], key, value)
  }

  function Sanitize(v: Json): Json
    decreases v
  {
    match v
    case Str(s) => Str(RedactText(s))
    case List(items) => List(SanitizeItems(v, |items|))
    case Dict(entries) => Dict(SanitizeEntries(v, |entries|))
    case _ => v
  }

  // The first n items of a list, sanitised.
  function SanitizeItems(v: Json, n: nat): (r: seq<Json>)
    requires v.List? && n <= |v.items|
    ensures |r| == n
    decreases v, n
  {
    if n == 0 then [] else SanitizeItems(v, n - 1) + [Sanitize(v.items[n - 1])]
  }

  // The dictionary built from the first n entries: several sensitive keys collapse into one.
  function SanitizeEntries(v: Json, n: nat): seq<Entry>
    requires v.Dict? && n <= |v.entries|
    decreases v, n
  {
    if n == 0 then []
    else
      var e := v.entries[n - 1];
      Put(SanitizeEntries(v, n - 1), RedactText(e.key), if Sensitive(e.key) then Str(MARK) else Sanitize(e.value))
  }

  ghost predicate UniqueKeys(es: seq<Entry>) {
    forall i, j :: 0 <= i < j < |es| ==> es[i].key != es[j].key
  }

  // Every dictionary inside v has distinct keys, as any decoded value has.
  ghost predicate WellFormed(v: Json)
    decreases v
  {
    match v
    case List(items) => forall i :: 0 <= i < |items| ==> WellFormed(items[i])
    case Dict(entries) => UniqueKeys(entries) && forall i :: 0 <= i < |entries| ==> WellFormed(entries[i].value)
    case _ => true
  }

  // No key and no string inside v mentions a sensitive word.
  ghost predicate Clean(v: Json)
    decreases v
  {
    match v
    case Str(s) => !Sensitive(s)
    case List(items) => forall i :: 0 <= i < |items| ==> Clean(items[i])
    case Dict(entries) => forall i :: 0 <= i < |entries| ==> !Sensitive(entries[i].key) && Clean(entries[i].value)
    case _ => true
  }

  ghost predicate CleanEntries(es: seq<Entry>) {
    forall i :: 0 <= i < |es| ==> !Sensitive(es[i].key) && Clean(es[i].value)
  }

  ghost predicate WellFormedEntries(es: seq<Entry>) {
    UniqueKeys(es) && forall i :: 0 <= i < |es| ==> WellFormed(es[i].value)
  }

  // A word that has a letter the text lacks is not in the text.
  lemma MissingLetter(text: string, word: string, k: nat)
    requires k < |word| && word[k] !in text
    ensures !Contains(text, word)
  {
    forall i ensures !OccursAt(text, word, i) {
      if 0 <= i <= |text| - |word| {
        assert text[i..i + |word|][k] == text[i + k];
      }
    }
  }

  // A text without these letters contains no sensitive word.
  lemma NoWordWithoutItsLetters(t: string)
    requires 'p' !in t && 's' !in t && 'o' !in t && 'u' !in t && 'b' !in t && 'f' !in t
    ensures forall w :: w in SENSITIVE_WORDS ==> !Contains(t, w)
  {
    MissingLetter(t, "password", 0);
    MissingLetter(t, "secret", 0);
    MissingLetter(t, "token", 1);
    MissingLetter(t, "api key", 1);
    MissingLetter(t, "authorization", 1);
    MissingLetter(t, "bearer", 0);
    MissingLetter(t, "private_key", 0);
    MissingLetter(t, "access_token", 4);
    MissingLetter(t, "refresh_token", 2);
  }

  // The replacement text is itself clean, so redacting twice changes nothing more.
  lemma MarkIsClean()
    ensures !Sensitive(MARK)
  {
    assert Lower(MARK) == "[redacted]";
    NoWordWithoutItsLetters(Lower(MARK));
  }

  // Whatever the letter case, a sensitive word anywhere in a text replaces the whole text.
  lemma AnyLetterCaseIsRedacted(text: string, i: nat, word: string)
    requires word in SENSITIVE_WORDS && i + |word| <= |text|
    requires forall k :: 0 <= k < |word| ==> LowerChar(text[i + k]) == word[k]
    ensures RedactText(text) == MARK
  {
    assert OccursAt(Lower(text), word, i);
    assert Contains(Lower(text), word);
  }

  lemma {:induction false} PutMembers(es: seq<Entry>, key: string, value: Json)
    ensures forall e :: e in Put(es, key, value) ==> e in es || e == Entry(key, value)
  {
    if es == [] || es[0].key == key {
    } else {
      PutMembers(es[1..], key, value);
    }
  }

  lemma {:induction false} PutUnique(es: seq<Entry>, key: string, value: Json)
    requires UniqueKeys(es)
    ensures UniqueKeys(Put(es, key, value))
  {
    if es == [] || es[0].key == key {
    } else {
      PutUnique(es[1..], key, value);
      PutMembers(es[1..], key, value);
      forall j | 0 <= j < |Put(es[1..], key, value)| ensures Put(es[1..], key, value)[j].key != es[0].key {
        var e := Put(es[1..], key, value)[j];
        assert e in Put(es[1..], key, value);
        assert e in es[1..] ==> exists m :: 1 <= m < |es| && es[m] == e;
      }
    }
  }

  lemma {:induction false} PutNew(es: seq<Entry>, key: string, value: Json)
    requires forall i :: 0 <= i < |es| ==> es[i].key != key
    ensures Put(es, key, value) == es + [Entry(key, value)]
  {
    if es == [] {
    } else {
      PutNew(es[1..], key, value);
      assert es == [es[0]] + es[1..];
    }
  }

  // Whatever goes in, what comes out is well formed and holds no sensitive word.
  lemma {:induction false} SanitizeIsClean(v: Json)
    ensures Clean(Sanitize(v)) && WellFormed(Sanitize(v))
    decreases v
  {
    MarkIsClean();
    match v
    case List(items) => SanitizeItemsClean(v, |items|);
    case Dict(entries) => SanitizeEntriesClean(v, |entries|);
    case _ =>
  }

  lemma {:induction false} SanitizeItemsClean(v: Json, n: nat)
    requires v.List? && n <= |v.items|
    ensures forall i :: 0 <= i < n ==> Clean(SanitizeItems(v, n)[i]) && WellFormed(SanitizeItems(v, n)[i])
    decreases v, n
  {
    if n == 0 {
    } else {
      SanitizeItemsClean(v, n - 1);
      SanitizeIsClean(v.items[n - 1]);
    }
  }

  lemma PutKeepsClean(es: seq<Entry>, key: string, value: Json)
    requires CleanEntries(es) && WellFormedEntries(es) && !Sensitive(key) && Clean(value) && WellFormed(value)
    ensures CleanEntries(Put(es, key, value)) && WellFormedEntries(Put(es, key, value))
  {
    PutUnique(es, key, value);
    PutMembers(es, key, value);
    forall i | 0 <= i < |Put(es, key, value)|
      ensures var x := Put(es, key, value)[i]; !Sensitive(x.key) && Clean(x.value) && WellFormed(x.value)
    {
      assert Put(es, key, value)[i] in Put(es, key, value);
    }
  }

  lemma {:induction false} SanitizeEntriesClean(v: Json, n: nat)
    requires v.Dict? && n <= |v.entries|
    ensures CleanEntries(SanitizeEntries(v, n)) && WellFormedEntries(SanitizeEntries(v, n))
    decreases v, n
  {
    if n > 0 {
      var e := v.entries[n - 1];
      var before := SanitizeEntries(v, n - 1);
      var value := if Sensitive(e.key) then Str(MARK) else Sanitize(e.value);
      SanitizeEntriesClean(v, n - 1);
      SanitizeIsClean(e.value);
      MarkIsClean();
      PutKeepsClean(before, RedactText(e.key), value);
    }
  }

  // A value is left alone exactly when it was clean.
  lemma {:induction false} UnchangedIffClean(v: Json)
    requires WellFormed(v)
    ensures Sanitize(v) == v <==> Clean(v)
  {
    if Clean(v) { CleanIsUnchanged(v); }
    SanitizeIsClean(v);
  }

  lemma {:induction false} CleanIsUnchanged(v: Json)
    requires WellFormed(v) && Clean(v)
    ensures Sanitize(v) == v
    decreases v
  {
    match v
    case List(items) => CleanItemsUnchanged(v, |items|); assert items[..|items|] == items;
    case Dict(entries) => CleanEntriesUnchanged(v, |entries|); assert entries[..|entries|] == entries;
    case _ =>
  }

  lemma {:induction false} CleanItemsUnchanged(v: Json, n: nat)
    requires v.List? && n <= |v.items| && WellFormed(v) && Clean(v)
    ensures SanitizeItems(v, n) == v.items[..n]
    decreases v, n
  {
    if n == 0 {
    } else {
      CleanItemsUnchanged(v, n - 1);
      CleanIsUnchanged(v.items[n - 1]);
    }
  }

  lemma {:induction false} CleanEntriesUnchanged(v: Json, n: nat)
    requires v.Dict? && n <= |v.entries| && WellFormed(v) && Clean(v)
    ensures SanitizeEntries(v, n) == v.entries[..n]
    decreases v, n
  {
    if n == 0 {
    } else {
      var e := v.entries[n - 1];
      CleanEntriesUnchanged(v, n - 1);
      CleanIsUnchanged(e.value);
      PutNew(v.entries[..n - 1], e.key, e.value);
    }
  }

  // e is what one of the first n entries, under a key that is not sensitive, turns into.
  ghost predicate Kept(v: Json, n: nat, e: Entry)
    requires v.Dict? && n <= |v.entries|
  {
    exists i :: 0 <= i < n && !Sensitive(v.entries[i].key) && v.entries[i].key == e.key &&
                e.value == Sanitize(v.entries[i].value)
  }

  // Only what is sensitive is touched: under every other key the sanitised value is kept, and no
  // other key appears.
  lemma {:induction false} OtherEntriesKept(v: Json, n: nat, e: Entry)
    requires v.Dict? && n <= |v.entries| && UniqueKeys(v.entries) && e.key != MARK
    ensures e in SanitizeEntries(v, n) <==> Kept(v, n, e)
    decreases n
  {
    if n > 0 {
      OtherEntriesKept(v, n - 1, e);
      var last := v.entries[n - 1];
      KeptStep(v, n, e);
      SanitizeEntriesClean(v, n - 1);
      PutExact(SanitizeEntries(v, n - 1), RedactText(last.key),
               if Sensitive(last.key) then Str(MARK) else Sanitize(last.value), e);
    }
  }

  lemma KeptStep(v: Json, n: nat, e: Entry)
    requires v.Dict? && 0 < n <= |v.entries| && UniqueKeys(v.entries)
    ensures var last := v.entries[n - 1];
            Kept(v, n, e) <==> if last.key == e.key then !Sensitive(e.key) && e.value == Sanitize(last.value)
                               else Kept(v, n - 1, e)
  {
  }

  lemma PutExact(es: seq<Entry>, key: string, value: Json, e: Entry)
    requires UniqueKeys(es)
    ensures e in Put(es, key, value) <==> if e.key == key then e.value == value else e in es
  {
    PutOthers(es, key, value, e);
    PutBinds(es, key, value);
    PutUnique(es, key, value);
  }

  lemma {:induction false} PutOthers(es: seq<Entry>, key: string, value: Json, e: Entry)
    ensures e.key != key ==> (e in Put(es, key, value) <==> e in es)
  {
    if es == [] {
    } else {
      assert e in es <==> e == es[0] || e in es[1..];
      if es[0].key != key {
        PutOthers(es[1..], key, value, e);
      }
    }
  }

  lemma {:induction false} PutBinds(es: seq<Entry>, key: string, value: Json)
    ensures Entry(key, value) in Put(es, key, value)
  {
    if es == [] || es[0].key == key {
    } else {
      PutBinds(es[1..], key, value);
    }
  }

  lemma SanitizeTwice(v: Json)
    ensures Sanitize(Sanitize(v)) == Sanitize(v)
  {
    SanitizeIsClean(v);
    CleanIsUnchanged(Sanitize(v));
  }

  // The error text is redacted by the caller and again by the log writer.
  lemma RedactTwice(text: Option<string>)
    ensures RedactOptional(RedactOptional(text)) == RedactOptional(text)
  {
    MarkIsClean();
  }
}
