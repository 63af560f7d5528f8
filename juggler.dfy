/** The plug-in parameter registry (Juggler): an ordered list of "virtual"
    parameters with a parallel list of flags saying which of them may be
    modified, and the XML load and store that honour those flags. */
module Juggler {

  import PyText

  /** The tag test accepts the registry's ID exactly, and also any spelling
      of it that differs only in the case of ASCII letters; it rejects a tag
      of another length. */
  lemma TagMatchIgnoresCase(id: string, tag: string)
    requires |tag| == |id|
    requires forall i :: 0 <= i < |id| ==>
      tag[i] == id[i] || ('a' <= id[i] <= 'z' && tag[i] as int == id[i] as int - 32)
      || ('A' <= id[i] <= 'Z' && tag[i] as int == id[i] as int + 32)
    ensures SameIgnoringCase(tag, id) && SameIgnoringCase(id, tag)
  {
    forall i | 0 <= i < |id|
      ensures UpperCase(tag[i]) == UpperCase(id[i])
    {
      if tag[i] != id[i] {
        if 'a' <= id[i] <= 'z' {
          assert tag[i] as int == UpperCase(id[i]) as int;
        } else {
          assert UpperCase(id[i]) == id[i];
          assert 'a' <= tag[i] <= 'z';
          assert UpperCase(tag[i]) as int == id[i] as int;
        }
      }
    }
  }

  /** Conversely, a tag the test accepts has the ID's length and differs
      from it only in the case of ASCII letters. */
  lemma MatchIsCaseVariant(id: string, tag: string)
    requires SameIgnoringCase(tag, id)
    ensures |tag| == |id|
    ensures forall i :: 0 <= i < |id| ==>
      tag[i] == id[i] || ('a' <= id[i] <= 'z' && tag[i] as int == id[i] as int - 32)
      || ('A' <= id[i] <= 'Z' && tag[i] as int == id[i] as int + 32)
  {
    forall i | 0 <= i < |id|
      ensures tag[i] == id[i] || ('a' <= id[i] <= 'z' && tag[i] as int == id[i] as int - 32)
              || ('A' <= id[i] <= 'Z' && tag[i] as int == id[i] as int + 32)
    {
      assert UpperCase(tag[i]) == UpperCase(id[i]);
    }
  }

  /** The tag test is an equivalence on strings. */
  lemma SameIgnoringCaseEquivalence(a: string, b: string, c: string)
    ensures SameIgnoringCase(a, a)
    ensures SameIgnoringCase(a, b) ==> SameIgnoringCase(b, a)
    ensures SameIgnoringCase(a, b) && SameIgnoringCase(b, c) ==> SameIgnoringCase(a, c)
  {
  }

  /** What `withSwitch` and `switchOf` must satisfy: putting a switch into
      a combined parameter and reading it back gives that switch. */
  ghost predicate SwitchLaw<P(!new)>(switchOf: P -> P, withSwitch: (P, P) -> P)
  {
    forall p: P, s: P :: switchOf(withSwitch(p, s)) == s
  }

  /** `CharacterFunctions::toUpperCase` on the ASCII letters; every other
      character is its own upper case. */
  function UpperCase(c: char): (u: char)
    ensures 'a' <= c <= 'z' ==> u as int == c as int - 32
    ensures !('a' <= c <= 'z') ==> u == c
  {
    if 'a' <= c <= 'z' then (c as int - 32) as char else c
  }

  /** `String::equalsIgnoreCase`: equal length and equal character by
      character once both are upper-cased. */
  predicate SameIgnoringCase(a: string, b: string)
  {
    |a| == |b| && forall i :: 0 <= i < |a| ==> UpperCase(a[i]) == UpperCase(b[i])
  }

  /** JUCE `Array::set`: overwrites an existing element, appends when the
      index is at or past the end, and ignores a negative index. */
  function ArraySet<T>(s: seq<T>, index: int, value: T): (r: seq<T>)
    ensures 0 <= index < |s| ==> r == s[index := value]
    ensures index >= |s| ==> r == s + [value]
    ensures index < 0 ==> r == s
  {
    if index < 0 then s
    else if index < |s| then s[index := value]
    else s + [value]
  }

  /** An XML settings document: its tag, the plug-in version attribute and
      the entries the parameters stored in it, in order. */
  datatype XmlElement<A> = XmlElement(tag: string, version: string, entries: seq<A>)

  /** What the writable parameters of `params` store, in order; read-only
      parameters contribute nothing. */
  function WritableEntries<P, A>(params: seq<P>, mayModify: seq<bool>, store: P -> A): seq<A>
    requires |params| == |mayModify|
  {
    if params == [] then []
    else
      var n := |params| - 1;
      WritableEntries(params[..n], mayModify[..n], store)
        + (if mayModify[n] then [store(params[n])] else [])
  }

  /** Number of writable flags. */
  function CountWritable(mayModify: seq<bool>): nat
  {
    if mayModify == [] then 0
    else CountWritable(mayModify[..|mayModify| - 1]) + (if mayModify[|mayModify| - 1] then 1 else 0)
  }

  /** The stored entries are exactly those of the writable parameters: one
      per writable parameter, each coming from a writable parameter, and
      every writable parameter's entry is among them. */
  lemma {:induction false} WritableEntriesExactly<P, A>(params: seq<P>, mayModify: seq<bool>, store: P -> A)
    requires |params| == |mayModify|
    ensures |WritableEntries(params, mayModify, store)| == CountWritable(mayModify)
    ensures forall e :: e in WritableEntries(params, mayModify, store) ==>
      exists i :: 0 <= i < |params| && mayModify[i] && store(params[i]) == e
    ensures forall i :: 0 <= i < |params| && mayModify[i] ==>
      store(params[i]) in WritableEntries(params, mayModify, store)
  {
    if params != [] {
      var n := |params| - 1;
      WritableEntriesExactly(params[..n], mayModify[..n], store);
      var prefix := WritableEntries(params[..n], mayModify[..n], store);
      forall e | e in WritableEntries(params, mayModify, store)
        ensures exists i :: 0 <= i < |params| && mayModify[i] && store(params[i]) == e
      {
        if e in prefix {
          var i :| 0 <= i < n && mayModify[..n][i] && store(params[..n][i]) == e;
          assert mayModify[i] && store(params[i]) == e;
        } else {
          assert mayModify[n] && store(params[n]) == e;
        }
      }
      forall i | 0 <= i < |params| && mayModify[i]
        ensures store(params[i]) in WritableEntries(params, mayModify, store)
      {
        if i < n {
          assert mayModify[..n][i] && params[..n][i] == params[i];
        }
      }
    }
  }

  /** The text `toString` builds: for each parameter its name, two
      spaces after a colon, its text and a newline. */
  function Listing<P>(params: seq<P>, name: P -> string, text: P -> string): string
  {
    if params == [] then ""
    else
      var n := |params| - 1;
      Listing(params[..n], name, text) + name(params[n]) + ":  " + text(params[n]) + "\n"
  }

  /** The listing has exactly one line per parameter. */
  lemma {:induction false} ListingLines<P>(params: seq<P>, name: P -> string, text: P -> string)
    requires forall p :: p in params ==> '\n' !in name(p) && '\n' !in text(p)
    ensures multiset(Listing(params, name, text))['\n'] == |params|
  {
    if params != [] {
      var n := |params| - 1;
      var front := params[..n];
      forall p | p in front
        ensures '\n' !in name(p) && '\n' !in text(p)
      {
        assert p in params;
      }
      ListingLines(front, name, text);
      assert params[n] in params;
      LineBreaks(Listing(front, name, text), name(params[n]), text(params[n]));
    }
  }

  /** Appending one line to a listing adds one line break. */
  lemma LineBreaks(listing: string, name: string, text: string)
    requires '\n' !in name && '\n' !in text
    ensures multiset(listing + name + ":  " + text + "\n")['\n'] == multiset(listing)['\n'] + 1
  {
    var line := name + ":  " + text;
    assert '\n' !in line;
    assert listing + name + ":  " + text + "\n" == listing + line + "\n";
    assert multiset(listing + line + "\n") == multiset(listing) + multiset(line) + multiset("\n");
  }

  /** A registry of `P` parameters. `owned` are the parameters handed to
      the registry (the ones it deletes on destruction); `virtualParameters`
      are the ones it exposes, where a combined parameter shows up twice (its
      mode switch, then itself). The switch is a member of the combined
      parameter, not a parameter of its own: `switchOf` reads it out of the
      combined parameter and `withSwitch` puts a changed one back, and the
      indices in `combined` are those of the combined parameters, whose
      switch sits just before them. */
  class Juggler<P(!new)> {
    const jugglerId: string
    const numberOfParameters: int
    const numberOfRevealedParameters: int
    const switchOf: P -> P
    const withSwitch: (P, P) -> P

    var owned: seq<P>
    var virtualParameters: seq<P>
    var mayModify: seq<bool>
    var combined: set<int>

    /** One flag per virtual parameter, and every combined parameter is
        writable and preceded by its own read-only mode switch. */
    ghost predicate Valid()
      reads this
    {
      |mayModify| == |virtualParameters|
      && SwitchLaw(switchOf, withSwitch)
      && forall i :: i in combined ==>
           1 <= i < |virtualParameters| && mayModify[i] && !mayModify[i - 1]
           && virtualParameters[i - 1] == switchOf(virtualParameters[i])
    }

    /** The constructor: an empty registry expecting `completeParameters`
        parameters, `revealedParameters` of which the host may automate. */
    constructor (settingsId: string, completeParameters: int, revealedParameters: int,
                 switchOf: P -> P, withSwitch: (P, P) -> P)
      requires SwitchLaw(switchOf, withSwitch)
      ensures Valid()
      ensures jugglerId == settingsId
      ensures numberOfParameters == completeParameters
      ensures numberOfRevealedParameters == revealedParameters
      ensures this.switchOf == switchOf && this.withSwitch == withSwitch
      ensures owned == [] && virtualParameters == [] && mayModify == [] && combined == {}
    {
      jugglerId := settingsId;
      numberOfParameters := completeParameters;
      numberOfRevealedParameters := revealedParameters;
      this.switchOf := switchOf;
      this.withSwitch := withSwitch;
      owned, virtualParameters, mayModify := [], [], [];
      combined := {};
    }

    /** `assertParameter`: the index names a registered parameter and, when
        it is to be changed, that parameter is writable. */
    predicate MayAccess(index: int, wantModification: bool)
      reads this
      requires Valid()
    {
      0 <= index < |virtualParameters| && (wantModification ==> mayModify[index])
    }

    /** `getPluginParameter` (and the per-index getters that delegate to
        it): the parameter registered at `index`. */
    function GetPluginParameter(index: int): (p: P)
      reads this
      requires Valid() && MayAccess(index, false)
      ensures p in virtualParameters
      ensures p == virtualParameters[index]
    {
      virtualParameters[index]
    }

    /** A writable parameter is never the mode switch of a combined one. */
    lemma WritableIsNoSwitch(index: int)
      requires Valid() && MayAccess(index, true)
      ensures index + 1 !in combined
    {
    }

    /** The per-index setters (`setName`, `setFloat`, `setRealFloat`,
        `setText`, ...): only a writable parameter may be changed. When it is
        a combined parameter its mode switch changes with it (`setName`
        renames the switch too); no other parameter changes. */
    method UpdateParameter(index: int, update: P -> P)
      requires Valid() && MayAccess(index, true)
      modifies this`virtualParameters
      ensures Valid()
      ensures |virtualParameters| == |old(virtualParameters)|
      ensures virtualParameters[index] == update(old(virtualParameters)[index])
      ensures index in combined ==> virtualParameters[index - 1] == switchOf(update(old(virtualParameters)[index]))
      ensures forall i :: 0 <= i < |virtualParameters| && i != index && !(index in combined && i == index - 1) ==>
        virtualParameters[i] == old(virtualParameters)[i]
    {
      WritableIsNoSwitch(index);
      var changed := update(virtualParameters[index]);
      virtualParameters := virtualParameters[index := changed];
      if index in combined {
        virtualParameters := virtualParameters[index - 1 := switchOf(changed)];
      }
    }

    /** `clearChangeFlag`: any registered parameter, read-only ones
        included, may have its change flag cleared. Clearing a combined
        parameter carries over to its switch and clearing a switch to its
        combined parameter, as they are one object; no other parameter
        changes. */
    method ClearChangeFlag(index: int, clear: P -> P)
      requires Valid() && MayAccess(index, false)
      modifies this`virtualParameters
      ensures Valid()
      ensures |virtualParameters| == |old(virtualParameters)|
      ensures virtualParameters[index] == clear(old(virtualParameters)[index])
      ensures index in combined ==> virtualParameters[index - 1] == switchOf(clear(old(virtualParameters)[index]))
      ensures index + 1 in combined ==>
        virtualParameters[index + 1] == withSwitch(old(virtualParameters)[index + 1], clear(old(virtualParameters)[index]))
      ensures forall i :: (0 <= i < |virtualParameters| && i != index
          && !(index in combined && i == index - 1) && !(index + 1 in combined && i == index + 1)) ==>
        virtualParameters[i] == old(virtualParameters)[i]
    {
      var cleared := clear(virtualParameters[index]);
      if index in combined {
        virtualParameters := virtualParameters[index := cleared][index - 1 := switchOf(cleared)];
      } else if index + 1 in combined {
        virtualParameters := virtualParameters[index := cleared][index + 1 := withSwitch(virtualParameters[index + 1], cleared)];
      } else {
        virtualParameters := virtualParameters[index := cleared];
      }
    }

    /** `toString`: one line "name:  text" per registered parameter. */
    method ToString(name: P -> string, text: P -> string) returns (listing: string)
      ensures listing == Listing(virtualParameters, name, text)
    {
      listing := "";
      var n := 0;
      while n < |virtualParameters|
        invariant 0 <= n <= |virtualParameters|
        invariant listing == Listing(virtualParameters[..n], name, text)
      {
        listing := listing + name(virtualParameters[n]) + ":  " + text(virtualParameters[n]) + "\n";
        assert virtualParameters[..n + 1][..n] == virtualParameters[..n];
        n := n + 1;
      }
      assert virtualParameters[..n] == virtualParameters;
    }

    /** `add`: the parameter is appended as writable at `index`, which must
        be the next free index. */
    method Add(parameter: P, index: int)
      requires Valid()
      requires index == |virtualParameters|
      modifies this`owned, this`virtualParameters, this`mayModify
      ensures Valid()
      ensures virtualParameters == old(virtualParameters) + [parameter]
      ensures mayModify == old(mayModify) + [true]
      ensures owned == old(owned) + [parameter]
      ensures MayAccess(index, true)
    {
      virtualParameters := virtualParameters + [parameter];
      owned := owned + [parameter];
      mayModify := mayModify + [true];
    }

    /** `addProtected`: as Add, then the flag at `index` is cleared. */
    method AddProtected(parameter: P, index: int)
      requires Valid()
      requires index == |virtualParameters|
      modifies this`owned, this`virtualParameters, this`mayModify
      ensures Valid()
      ensures virtualParameters == old(virtualParameters) + [parameter]
      ensures mayModify == old(mayModify) + [false]
      ensures owned == old(owned) + [parameter]
      ensures MayAccess(index, false) && !MayAccess(index, true)
    {
      Add(parameter, index);
      mayModify := ArraySet(mayModify, index, false);
    }

    /** `addCombined`: the combined parameter's own mode switch is appended
        read-only at `switchIndex`, then the parameter itself writable at
        `parameterIndex`; only the combined parameter is owned, and from now
        on the switch entry is the one inside the parameter. */
    method AddCombined(parameter: P, switchIndex: int, parameterIndex: int)
      requires Valid()
      requires parameterIndex == switchIndex + 1
      requires switchIndex == |virtualParameters|
      modifies this
      ensures Valid()
      ensures virtualParameters == old(virtualParameters) + [switchOf(parameter), parameter]
      ensures mayModify == old(mayModify) + [false, true]
      ensures owned == old(owned) + [parameter]
      ensures combined == old(combined) + {parameterIndex}
      ensures !MayAccess(switchIndex, true) && MayAccess(parameterIndex, true)
    {
      virtualParameters := virtualParameters + [switchOf(parameter)];
      // the flag list is one shorter here, so setting the switch's index appends
      mayModify := ArraySet(mayModify, switchIndex, false);
      owned := owned + [parameter];
      virtualParameters := virtualParameters + [parameter];
      mayModify := mayModify + [true];
      combined := combined + {parameterIndex};
    }

    /** `getNumParameters`: once every intended parameter has been added,
        the complete count is the number of virtual parameters; otherwise
        the revealed count is returned. */
    function GetNumParameters(includeHiddenParameters: bool): (n: int)
      reads this
      requires numberOfParameters == |virtualParameters|
      ensures includeHiddenParameters ==> n == |virtualParameters|
      ensures !includeHiddenParameters ==> n == numberOfRevealedParameters
    {
      if includeHiddenParameters then numberOfParameters else numberOfRevealedParameters
    }

    /** `loadFromXml`: only a document whose tag is this registry's ID
        (`hasTagName`, which ignores case) is read, and then only writable
        parameters load from it. A combined parameter's mode switch follows
        what its parameter loaded; every other read-only parameter stays as
        it was. */
    method LoadFromXml<A>(xmlDocument: PyText.Option<XmlElement<A>>, load: (P, XmlElement<A>) -> P)
      requires Valid()
      modifies this`virtualParameters
      ensures Valid()
      ensures |virtualParameters| == |old(virtualParameters)|
      ensures forall i :: 0 <= i < |virtualParameters| && mayModify[i] ==>
        virtualParameters[i] ==
          if xmlDocument.Some? && SameIgnoringCase(xmlDocument.value.tag, jugglerId)
          then load(old(virtualParameters[i]), xmlDocument.value)
          else old(virtualParameters[i])
      ensures forall i :: 0 <= i < |virtualParameters| && !mayModify[i] && i + 1 !in combined ==>
        virtualParameters[i] == old(virtualParameters[i])
      ensures !(xmlDocument.Some? && SameIgnoringCase(xmlDocument.value.tag, jugglerId)) ==>
        virtualParameters == old(virtualParameters)
    {
      if xmlDocument.Some? && SameIgnoringCase(xmlDocument.value.tag, jugglerId) {
        var n := 0;
        while n < |virtualParameters|
          invariant 0 <= n <= |virtualParameters| == |old(virtualParameters)|
          invariant Valid()
          invariant forall i :: 0 <= i < n && mayModify[i] ==>
            virtualParameters[i] == load(old(virtualParameters[i]), xmlDocument.value)
          invariant forall i :: 0 <= i < |virtualParameters| && !mayModify[i] && i + 1 !in combined ==>
            virtualParameters[i] == old(virtualParameters[i])
          invariant forall i :: n <= i < |virtualParameters| ==>
            virtualParameters[i] == old(virtualParameters[i])
        {
          if mayModify[n] {
            LoadOne(n, xmlDocument.value, load);
          }
          n := n + 1;
        }
      }
    }

    /** One pass of the load loop: the writable parameter at `n` loads, and
        when it is combined its switch follows. */
    method LoadOne<A>(n: int, xmlDocument: XmlElement<A>, load: (P, XmlElement<A>) -> P)
      requires Valid() && MayAccess(n, true)
      modifies this`virtualParameters
      ensures Valid()
      ensures |virtualParameters| == |old(virtualParameters)|
      ensures virtualParameters[n] == load(old(virtualParameters)[n], xmlDocument)
      ensures forall i :: 0 <= i < |virtualParameters| && i != n && !(n in combined && i == n - 1) ==>
        virtualParameters[i] == old(virtualParameters)[i]
    {
      UpdateParameter(n, p => load(p, xmlDocument));
    }

    /** `storeAsXml`: a document tagged with this registry's ID and the
        plug-in version, holding what each writable parameter stores, in
        registry order. */
    method StoreAsXml<A>(version: string, store: P -> A) returns (xmlDocument: XmlElement<A>)
      requires Valid()
      ensures xmlDocument.tag == jugglerId && xmlDocument.version == version
      ensures xmlDocument.entries == WritableEntries(virtualParameters, mayModify, store)
    {
      xmlDocument := XmlElement(jugglerId, version, []);
      var n := 0;
      while n < |virtualParameters|
        invariant 0 <= n <= |virtualParameters|
        invariant xmlDocument.tag == jugglerId && xmlDocument.version == version
        invariant xmlDocument.entries == WritableEntries(virtualParameters[..n], mayModify[..n], store)
      {
        if mayModify[n] {
          xmlDocument := xmlDocument.(entries := xmlDocument.entries + [store(virtualParameters[n])]);
        }
        assert virtualParameters[..n + 1][..n] == virtualParameters[..n];
        assert mayModify[..n + 1][..n] == mayModify[..n];
        n := n + 1;
      }
      assert virtualParameters[..n] == virtualParameters;
      assert mayModify[..n] == mayModify;
    }
  }
}
