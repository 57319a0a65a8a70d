/** Icon lookup by name: the name as given, then its kebab-case to PascalCase conversion,
    then the two theme-toggle emoji, then the smiley fallback. The icon library is the set
    of names it exports; an icon is identified by its exported name. */
module IconUtils {
  import opened Text

  /** `s.split(sep)`: the pieces between separators; an empty string is one empty piece. */
  function Split(s: string, sep: char): (parts: seq<string>)
    ensures |parts| >= 1
    ensures forall i :: 0 <= i < |parts| ==> sep !in parts[i]
  {
    if s == [] then [[]]
    else
      var rest := Split(s[1..], sep);
      if s[0] == sep then [[]] + rest
      else [[s[0]] + rest[0]] + rest[1..]
  }

  /** `parts.join(sep)` */
  function Join(parts: seq<string>, sep: char): string
    requires |parts| >= 1
  {
    if |parts| == 1 then parts[0] else parts[0] + [sep] + Join(parts[1..], sep)
  }

  /** `parts.join('')` */
  function Concat(parts: seq<string>): string {
    if parts == [] then [] else parts[0] + Concat(parts[1..])
  }

  /** Number of occurrences of `c` in `s`. */
  function Count(s: string, c: char): nat {
    if s == [] then 0 else (if s[0] == c then 1 else 0) + Count(s[1..], c)
  }

  /** Splitting and joining with the same separator gives the string back. */
  lemma {:induction false} SplitJoin(s: string, sep: char)
    ensures Join(Split(s, sep), sep) == s
  {
    if s != [] {
      SplitJoin(s[1..], sep);
      var rest := Split(s[1..], sep);
      if s[0] != sep {
        if |rest| == 1 {
          assert Split(s, sep) == [[s[0]] + rest[0]];
        } else {
          var parts := Split(s, sep);
          assert parts[1..] == rest[1..];
          assert Join(rest, sep) == rest[0] + [sep] + Join(rest[1..], sep);
        }
      }
    }
  }

  /** There is one more piece than there are separators. */
  lemma {:induction false} SplitCount(s: string, sep: char)
    ensures |Split(s, sep)| == Count(s, sep) + 1
  {
    if s != [] {
      SplitCount(s[1..], sep);
    }
  }

  /** `part.charAt(0).toUpperCase() + part.slice(1)` */
  function Capitalize(part: string): (r: string)
    ensures |r| == |part|
    ensures r != [] ==> r[0] == UpperChar(part[0]) && r[1..] == part[1..]
  {
    if part == [] then [] else [UpperChar(part[0])] + part[1..]
  }

  function CapitalizeAll(parts: seq<string>): (r: seq<string>)
    ensures |r| == |parts|
  {
    if parts == [] then [] else [Capitalize(parts[0])] + CapitalizeAll(parts[1..])
  }

  /** The kebab-case to PascalCase conversion of `getIcon`. The split-capitalize-join
      pipeline equals the one-pass reading: every hyphen is dropped and the first letter and
      each letter after a hyphen are upper-cased; so the result has no hyphen and is shorter
      by the number of hyphens. */
  function ToPascalCase(name: string): (r: string)
    ensures r == DropHyphens(name, true)
    ensures '-' !in r
    ensures |r| == |name| - Count(name, '-')
  {
    PascalFromDropsHyphens(name, true);
    var parts := Split(name, '-');
    assert CapitalizeAll(parts) == [Capitalize(parts[0])] + CapitalizeAll(parts[1..]);
    Concat(CapitalizeAll(parts))
  }

  /** A one-pass reading of the same conversion: every hyphen is dropped and the letter
      after it, like the first letter, is upper-cased. */
  function DropHyphens(s: string, capNext: bool): (r: string)
    ensures |r| == |s| - Count(s, '-')
    ensures '-' !in r
  {
    if s == [] then []
    else if s[0] == '-' then DropHyphens(s[1..], true)
    else [if capNext then UpperChar(s[0]) else s[0]] + DropHyphens(s[1..], false)
  }

  /** The conversion with its first piece capitalized only when `cap` holds. */
  function PascalFrom(s: string, cap: bool): string {
    var parts := Split(s, '-');
    (if cap then Capitalize(parts[0]) else parts[0]) + Concat(CapitalizeAll(parts[1..]))
  }

  lemma {:induction false} PascalFromDropsHyphens(s: string, cap: bool)
    ensures PascalFrom(s, cap) == DropHyphens(s, cap)
  {
    if s != [] {
      var rest := Split(s[1..], '-');
      PascalFromDropsHyphens(s[1..], s[0] == '-');
      if s[0] == '-' {
        assert Split(s, '-')[1..] == rest;
      } else {
        var parts := Split(s, '-');
        assert parts[0] == [s[0]] + rest[0];
        assert parts[1..] == rest[1..];
        if cap {
          assert Capitalize(parts[0]) == [UpperChar(s[0])] + rest[0];
        }
      }
    }
  }

  /** Without hyphens the conversion only upper-cases the first letter. */
  lemma {:induction false} DropHyphensNoHyphen(s: string, cap: bool)
    requires '-' !in s
    ensures DropHyphens(s, cap) == if cap then Capitalize(s) else s
  {
    if s != [] {
      assert '-' !in s[1..] by {
        assert forall k :: 0 <= k < |s[1..]| ==> s[1..][k] == s[k + 1];
      }
      DropHyphensNoHyphen(s[1..], false);
    }
  }

  /** Converting twice is converting once. */
  lemma ToPascalCaseIdempotent(name: string)
    ensures ToPascalCase(ToPascalCase(name)) == ToPascalCase(name)
  {
    var once := ToPascalCase(name);
    DropHyphensNoHyphen(once, true);
    if once != [] {
      assert once[0] == UpperChar(name[CountPrefixHyphens(name)]) by {
        FirstOfDropHyphens(name);
      }
    }
  }

  /** Number of leading hyphens. */
  function CountPrefixHyphens(s: string): (n: nat)
    ensures n <= |s|
  {
    if s != [] && s[0] == '-' then 1 + CountPrefixHyphens(s[1..]) else 0
  }

  /** The first character produced is the first non-hyphen, upper-cased. */
  lemma {:induction false} FirstOfDropHyphens(s: string)
    requires DropHyphens(s, true) != []
    ensures CountPrefixHyphens(s) < |s|
    ensures DropHyphens(s, true)[0] == UpperChar(s[CountPrefixHyphens(s)])
  {
    if s[0] == '-' {
      FirstOfDropHyphens(s[1..]);
    }
  }

  /** A name without hyphens converts to itself with its first letter upper-cased. */
  lemma CapitalizedWord(w: string)
    requires w != [] && '-' !in w
    ensures ToPascalCase(w) == [UpperChar(w[0])] + w[1..]
  {
    DropHyphensNoHyphen(w, true);
  }

  /** What `getIcon` returns: a library icon by its exported name, or one of the emoji
      components of the theme toggle. */
  datatype Icon = Library(name: string) | SunEmoji | MoonEmoji

  /** `Smile`, imported by name: it is returned whether or not the lookup table lists it. */
  const Fallback := Library("Smile")

  /** `getIcon(iconName)` against the set of names the icon library exports. */
  function GetIcon(library: set<string>, name: string): (icon: Icon)
    ensures name in library ==> icon == Library(name)
    ensures name !in library && ToPascalCase(name) in library ==> icon == Library(ToPascalCase(name))
    ensures icon == SunEmoji <==> name == "sun" && name !in library && ToPascalCase(name) !in library
    ensures icon == MoonEmoji <==> name == "moon" && name !in library && ToPascalCase(name) !in library
    ensures icon.Library? ==> icon.name in library || icon == Fallback
    ensures name !in library && ToPascalCase(name) !in library && name != "sun" && name != "moon" ==>
      icon == Fallback
  {
    if name in library then Library(name)
    else
      var pascal := ToPascalCase(name);
      if pascal in library then Library(pascal)
      else if name == "sun" then SunEmoji
      else if name == "moon" then MoonEmoji
      else Fallback
  }

  /** A kebab-case name whose conversion the library exports resolves to the same icon as
      the PascalCase name itself. */
  lemma KebabResolvesLikePascal(library: set<string>, name: string)
    requires ToPascalCase(name) in library && name !in library
    ensures GetIcon(library, name) == GetIcon(library, ToPascalCase(name))
  {
  }

  /** When the library exports `Sun` (or `Moon`) and not the lower-case name, the
      conversion of "sun" (or "moon") finds it first and the emoji branch is never reached. */
  lemma ThemeIconsShadowed(library: set<string>)
    ensures "Sun" in library && "sun" !in library ==> GetIcon(library, "sun") == Library("Sun")
    ensures "Moon" in library && "moon" !in library ==> GetIcon(library, "moon") == Library("Moon")
  {
    CapitalizedWord("sun");
    assert "Sun" == [UpperChar('s')] + "sun"[1..];
    CapitalizedWord("moon");
    assert "Moon" == [UpperChar('m')] + "moon"[1..];
  }
}
