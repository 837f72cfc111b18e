/** The accepted-type list: which files `acceptedFiles` lets through. */
module FileTypes {
  import opened Text

  /** What the browser tells about a chosen file. */
  datatype Desc = Desc(name: string, mime: string, size: nat)

  datatype Entry = Extension(suffix: string) | AnyOf(base: string) | Exactly(mime: string)

  /** How one comma-separated entry of the list reads. */
  function ParseEntry(text: string): Entry {
    var t := Trim(text);
    if t != "" && t[0] == '.' then Extension(t)
    else if EndsWith(t, "/*") then AnyOf(Base(t))
    else Exactly(t)
  }

  /** What an entry means: a case-blind file name ending, a family of types, or one type. */
  predicate Admits(e: Entry, d: Desc) {
    match e
    case Extension(suffix) => EndsWith(Lower(d.name), Lower(suffix))
    case AnyOf(base) => Base(d.mime) == base
    case Exactly(mime) => d.mime == mime
  }

  /** The list admits a file when it is empty or one of its entries does. */
  predicate Accepted(acceptedFiles: string, d: Desc) {
    acceptedFiles == "" || exists e | e in Split(acceptedFiles, ',') :: Admits(ParseEntry(e), d)
  }

  method IsValidFile(d: Desc, acceptedFiles: string) returns (valid: bool)
    ensures valid <==> Accepted(acceptedFiles, d)
  {
    if acceptedFiles == "" {
      return true;
    }
    var entries := Split(acceptedFiles, ',');
    var baseMimeType := Base(d.mime);
    for i := 0 to |entries|
      invariant forall j | 0 <= j < i :: !Admits(ParseEntry(entries[j]), d)
    {
      var validType := Trim(entries[i]);
      assert entries[i] in entries;
      if validType != "" && validType[0] == '.' {
        OccursFromTail(Lower(d.name), Lower(validType));
        if OccursFrom(Lower(d.name), Lower(validType), |d.name| - |validType|) {
          return true;
        }
      } else if EndsWith(validType, "/*") {
        if baseMimeType == Base(validType) {
          return true;
        }
      } else if d.mime == validType {
        return true;
      }
    }
    return false;
  }

  /** Without a list every file is accepted. */
  lemma NoListAdmitsAll(d: Desc)
    ensures Accepted("", d)
  {
  }

  /** The name ends in these characters, upper and lower case being the same. */
  predicate NameEndsIn(name: string, ending: string) {
    |ending| <= |name| && forall k | 0 <= k < |ending| :: SameLetter(name[|name| - |ending| + k], ending[k])
  }

  /** An entry that starts with a dot admits the files with that ending, whatever their type. */
  lemma EndingAdmits(ending: string, d: Desc)
    requires ending != "" && ending[0] == '.' && Trim(ending) == ending
    ensures Admits(ParseEntry(ending), d) <==> NameEndsIn(d.name, ending)
  {
    hide Trim, Lower;
    SameEnding(d.name, ending);
  }

  lemma SameEnding(name: string, ending: string)
    ensures EndsWith(Lower(name), Lower(ending)) <==> NameEndsIn(name, ending)
  {
    var n := |name| - |ending|;
    if n >= 0 {
      forall k | 0 <= k < |ending|
        ensures Lower(name)[n..][k] == Lower(ending)[k] <==> SameLetter(name[n + k], ending[k])
      {
        LowerIsCaseBlind(name[n + k], ending[k]);
      }
    }
  }

  /** An entry for a family admits exactly the types of that family, whatever the name. */
  lemma FamilyAdmits(family: string, d: Desc, base: string, rest: string)
    requires (family != "" ==> family[0] != '.') && '/' !in family && Trim(family + "/*") == family + "/*"
    requires d.mime == base + "/" + rest && '/' !in base && OneLine(d.mime) && OneLine(family)
    ensures Admits(ParseEntry(family + "/*"), d) <==> base == family
  {
    BaseOfParts(family, "*");
    BaseOfParts(base, rest);
    var t := family + "/*";
    assert t == family + "/" + "*" && t[|t| - 2..] == "/*";
    assert t[0] == if family == "" then '/' else family[0];
  }

  /** Any other entry admits exactly the files of that type. */
  lemma TypeAdmits(mime: string, d: Desc)
    requires Trim(mime) == mime && (mime != "" ==> mime[0] != '.') && !EndsWith(mime, "/*")
    ensures Admits(ParseEntry(mime), d) <==> d.mime == mime
  {
  }

  /** Blanks around an entry do not matter. */
  lemma BlanksDoNotMatter(text: string)
    ensures Trim(Trim(text)) == Trim(text) && ParseEntry(text) == ParseEntry(Trim(text))
  {
    var a, b := TrimForm(text);
  }

  /** A list admits what one of its entries admits; entries are separated by commas. */
  lemma ListAdmits(entries: seq<string>, d: Desc)
    requires entries != [] && entries != [""] && forall e | e in entries :: ',' !in e
    ensures Accepted(Join(entries, ','), d) <==> exists e | e in entries :: Admits(ParseEntry(e), d)
  {
    SplitJoin(entries, ',');
    assert Split("", ',') == [""];
  }

  /** What an entry of the list asks of a file whose type the browser left blank. */
  predicate AdmitsUntyped(text: string, name: string) {
    var t := Trim(text);
    || t == ""
    || (t[0] == '.' && EndsWith(Lower(name), Lower(t)))
    || (t[0] == '/' && EndsWith(t, "/*") && OneLine(t))
  }

  lemma UntypedEntry(text: string, d: Desc)
    requires d.mime == ""
    ensures Admits(ParseEntry(text), d) <==> AdmitsUntyped(text, d.name)
  {
    var t := Trim(text);
    assert EndsWith(t, "/*") ==> t != "" && t[|t| - 2] == '/';
    assert Base("") == "" && (t != "" ==> (Base(t) == "" <==> t[0] == '/' && OneLine(t)));
  }

  /**
   * A file of unknown type passes a list that is not empty if and only if its name has one of the endings, or the list
   * has an entry that is blank, as a stray comma makes it, or one for any type of an unnamed family, like "/" + "*".
   */
  lemma UntypedPasses(list: string, d: Desc)
    requires d.mime == "" && list != ""
    ensures Accepted(list, d) <==> exists e | e in Split(list, ',') :: AdmitsUntyped(e, d.name)
  {
    forall e ensures Admits(ParseEntry(e), d) <==> AdmitsUntyped(e, d.name) {
      UntypedEntry(e, d);
    }
  }

  /** So a comma at the end of any list, however strict, opens it to every file of unknown type. */
  lemma StrayCommaAdmitsUntyped(list: string, d: Desc)
    requires d.mime == ""
    ensures Accepted(list + ",", d)
  {
    var parts := Split(list + ",", ',');
    SplitTrailing(list, ',');
    assert parts[|Split(list, ',')|] == "" && "" in parts;
    UntypedPasses(list + ",", d);
    assert AdmitsUntyped("", d.name);
  }
}
