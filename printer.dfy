/**
 * The query and printing engine of dxdia.cpp: ProcessDiaDataSource opens a
 * session and dispatches on the query's first token; PrintTable, PrintSymbol
 * and FindChildrenAndPrint walk tables and symbols depth first. The DIA
 * session, tables, symbols and enumerators are given as values holding the
 * answers their methods return; what is printed is a sequence of writes to
 * the console, and what ends the walk is a status.
 */
module Printer {
  import opened Com
  import opened Decimal
  import opened Errors
  import opened SymTags

  // ---------------------------------------------------------------------
  // What the DIA provider answers

  const VT_EMPTY: uint16 := 0
  const VT_I4: uint16 := 3
  const VT_BSTR: uint16 := 8
  const VT_UI4: uint16 := 19

  /** A VARIANT: its type tag and the members the printer reads. */
  datatype Variant = Variant(vt: uint16, bstrVal: string, intVal: int32, uintVal: uint32)

  /**
   * An IDiaSymbol, as the answers of the getters the printer calls. The
   * symbol's own address and its lexical parent's are opaque identifiers.
   */
  datatype Symbol = Symbol(
    addr: string,
    parentHr: HResult, parentAddr: string,   // get_lexicalParent
    nameHr: HResult, name: Option<string>,   // get_name; None is a null BSTR
    tagHr: HResult, tag: uint32,             // get_symTag
    valueHr: HResult, value: Variant,        // get_value
    childrenHr: HResult, children: Enumerator) // findChildren

  /**
   * An IDiaEnumSymbols: the answers of its successive Next calls, each with
   * the symbol it fetched (Count == 1) or none (Count == 0). Past the last
   * listed answer it answers S_FALSE and fetches nothing.
   */
  datatype Enumerator = Enumerator(fetches: seq<Fetch>)
  datatype Fetch = Fetch(hr: HResult, item: Option<Symbol>)

  /** An IDiaTable: its name, and its symbols when it is an IDiaEnumSymbols. */
  datatype Table = Table(nameHr: HResult, name: string, symbols: Option<Enumerator>)

  /** An IDiaEnumTables, in the same way as Enumerator. */
  datatype TableEnumerator = TableEnumerator(fetches: seq<TableFetch>)
  datatype TableFetch = TableFetch(hr: HResult, item: Option<Table>)

  /** An IDiaSession: its tables and its global scope. */
  datatype Session = Session(tablesHr: HResult, tables: TableEnumerator,
                             globalHr: HResult, globalScope: Symbol)

  /** What IDiaDataSource::openSession answers. */
  datatype SessionOpen = SessionOpen(hr: HResult, session: Session)

  // ---------------------------------------------------------------------
  // What is printed

  /** One write to the console. */
  datatype Write =
    | Header(indent: string, path: string, addr: string, parentAddr: string, name: string, tag: string)
    | ValueText(text: string)
    | NewLine
    | TableHeader(indent: string, path: string, name: string)
    | Message(text: string)

  function Text(w: Write): string {
    match w
    case Header(indent, path, addr, parentAddr, name, tag) =>
      indent + path + ": " + addr + " " + parentAddr + " " + name + " " + tag
    case ValueText(text) => text
    case NewLine => "\n"
    case TableHeader(indent, path, name) => indent + path + ": " + name + "\n"
    case Message(text) => text
  }

  /** The text a sequence of writes puts on the console. */
  function Render(out: seq<Write>): string
    decreases |out|
  {
    if out == [] then "" else Text(out[0]) + Render(out[1..])
  }

  /** What a part of the walk writes, and whether it ends normally. */
  datatype Printed = Printed(out: seq<Write>, status: Result<()>)

  const Done := Printed([], Ok(()))

  /** Run a, then b unless a raised. */
  function Then(a: Printed, b: Printed): Printed {
    if a.status.Ok? then Printed(a.out + b.out, b.status) else a
  }

  function Spaces(n: nat): (s: string)
    ensures |s| == n && forall i :: 0 <= i < n ==> s[i] == ' '
  {
    seq(n, _ => ' ')
  }

  /** The label of the k-th child (1-based) of the node labelled prefix. */
  function ChildLabel(prefix: string, index: nat): string {
    prefix + "." + NatToString(index + 1)
  }

  /**
   * The DWORD tag cast to SymTagEnum, whose underlying type is a 32-bit int:
   * values from 2^31 on come out negative.
   */
  function AsSymTagEnum(dword: uint32): int32 {
    if dword < 0x8000_0000 then dword else dword - 0x1_0000_0000
  }

  function NameText(s: Symbol): string {
    if s.name.Some? then s.name.value else "<null>"
  }

  function TagText(s: Symbol): string {
    if s.tagHr == S_OK then SymTagToStr(AsSymTagEnum(s.tag)) else "<none>"
  }

  /** What follows the symbol line when the symbol has a value. */
  function ValueSuffix(v: Variant): string {
    if v.vt == VT_EMPTY then "([vt] 0)"
    else if v.vt == VT_BSTR then ": " + v.bstrVal
    else if v.vt == VT_I4 then ": " + IntToString(v.intVal)
    else if v.vt == VT_UI4 then ": " + NatToString(v.uintVal)
    else ": ??? ([vt]" + NatToString(v.vt) + ")"
  }

  // ---------------------------------------------------------------------
  // The walk, as functions of what the provider answers

  /** The start of a symbol's line: label, addresses, name and tag. */
  function SymbolHeader(s: Symbol, ident: string, prefix: string): Write {
    Header(ident, prefix, s.addr, s.parentAddr, NameText(s), TagText(s))
  }

  /** A symbol's line, with its value when it has one. */
  function SymbolLine(s: Symbol, ident: string, prefix: string): seq<Write> {
    [SymbolHeader(s, ident, prefix)] + (if s.valueHr == S_OK then [ValueText(ValueSuffix(s.value))] else [])
  }

  /** PrintSymbol: one symbol line, then its children, if it has any. */
  function SymbolOutput(s: Symbol, ident: string, prefix: string): Printed
    decreases s
  {
    if !Answered(s.parentHr) then Printed([], Raise(ChildrenEnumErr, DxDiaCpp, 126))
    else if !Answered(s.nameHr) then Printed([], Raise(ChildrenEnumErr, DxDiaCpp, 138))
    else if !Answered(s.tagHr) then Printed([], Raise(ChildrenEnumErr, DxDiaCpp, 152))
    else
      if !Answered(s.valueHr) then Printed([SymbolHeader(s, ident, prefix)], Raise(ChildrenEnumErr, DxDiaCpp, 168))
      else
        var line := SymbolLine(s, ident, prefix);
        if s.childrenHr == S_OK then
          Then(Printed(line + [NewLine], Ok(())), ChildrenOutput(s.children, 0, ident + "  ", prefix))
        else if s.childrenHr == E_NOTIMPL || s.childrenHr == S_FALSE then Printed(line, Ok(()))
        else Printed(line, Raise(ChildrenEnumErr, DxDiaCpp, 192))
  }

  /** FindChildrenAndPrint from the index-th Next call on. */
  function ChildrenOutput(e: Enumerator, index: nat, ident: string, prefix: string): Printed
    requires index <= |e.fetches|
    decreases e, |e.fetches| - index
  {
    if index == |e.fetches| then Done
    else
      var f := e.fetches[index];
      if !Answered(f.hr) then Printed([], Raise(ChildrenEnumErr, DxDiaCpp, 111))
      else
        var here :=
          if f.item.None? then Done
          else Then(SymbolOutput(f.item.value, ident + "  ", ChildLabel(prefix, index)), Printed([NewLine], Ok(())));
        if f.hr == S_FALSE then here
        else Then(here, ChildrenOutput(e, index + 1, ident, prefix))
  }

  /** PrintTable: the table's name line, then its symbols. */
  function TableOutput(t: Table, ident: string, prefix: string): Printed {
    if t.nameHr != S_OK then Printed([], Raise(ChildrenEnumErr, DxDiaCpp, 206))
    else
      var line := Printed([TableHeader(ident, prefix, t.name)], Ok(()));
      if t.symbols.None? then line
      else Then(line, ChildrenOutput(t.symbols.value, 0, ident, prefix))
  }

  /** The tables loop of ProcessDiaDataSource from the index-th Next call on. */
  function TablesOutput(e: TableEnumerator, index: nat): Printed
    requires index <= |e.fetches|
    decreases |e.fetches| - index
  {
    if index == |e.fetches| then Done
    else
      var f := e.fetches[index];
      if !Answered(f.hr) then Printed([], Raise(ChildrenEnumErr, DxDiaCpp, 254))
      else
        var here := if f.item.None? then Done else TableOutput(f.item.value, "", NatToString(index + 1));
        if f.hr == S_FALSE then here
        else Then(here, TablesOutput(e, index + 1))
  }

  // ---------------------------------------------------------------------
  // The query

  const QueryDelimiter := '.'

  /**
   * llvm::SplitString with the delimiter ".": the maximal non-empty runs of
   * characters other than '.', in order. current is the run being read.
   */
  function SplitFrom(s: string, current: string): seq<string>
    decreases |s|
  {
    if s == [] then (if current == [] then [] else [current])
    else if s[0] == QueryDelimiter then
      (if current == [] then [] else [current]) + SplitFrom(s[1..], [])
    else SplitFrom(s[1..], current + [s[0]])
  }

  /**
   * SplitString(query, tokens, "."): the tokens are non-empty, hold no '.',
   * and together are exactly the query's other characters, in order.
   */
  function SplitString(s: string): (tokens: seq<string>)
    ensures forall k :: 0 <= k < |tokens| ==> tokens[k] != [] && NoDelimiter(tokens[k])
    ensures Concat(tokens) == WithoutDelimiters(s)
  {
    SplitFromTokens(s, []);
    SplitFrom(s, [])
  }

  const NoQueryMessage := "no query provided - exiting..."

  /** ProcessDiaDataSource: open a session, then answer the query. */
  function QueryOutput(open: SessionOpen, query: string): Printed {
    if open.hr != S_OK then Printed([], Raise(SessionCreationErr, DxDiaCpp, 221))
    else
      var tokens := SplitString(query);
      if tokens == [] then Printed([Message(NoQueryMessage)], OutOfBoundsRead)
      else if tokens[0] == "tables" then
        if |tokens| > 1 then Printed([], Raise(QueryErr, DxDiaCpp, 234))
        else if open.session.tablesHr != S_OK then Printed([], Raise(ChildrenEnumErr, DxDiaCpp, 239))
        else TablesOutput(open.session.tables, 0)
      else if tokens[0] == "@" then
        if |tokens| > 1 then Printed([], Raise(QueryErr, DxDiaCpp, 263))
        else if open.session.globalHr != S_OK then Printed([], Raise(ChildrenEnumErr, DxDiaCpp, 268))
        else SymbolOutput(open.session.globalScope, "", "@")
      else Done
  }

  // ---------------------------------------------------------------------
  // The walk as the program runs it

  method PrintSymbol(s: Symbol, ident: string, prefix: string) returns (p: Printed)
    ensures p == SymbolOutput(s, ident, prefix)
    decreases s
  {
    if !Answered(s.parentHr) {
      return Printed([], Raise(ChildrenEnumErr, DxDiaCpp, 126));
    }
    if !Answered(s.nameHr) {
      return Printed([], Raise(ChildrenEnumErr, DxDiaCpp, 138));
    }
    var name := "<null>";
    if s.name.Some? {
      name := s.name.value;
    }
    var sST := "<none>";
    if s.tagHr == S_OK {
      sST := SymTagToStr(AsSymTagEnum(s.tag));
    } else if s.tagHr != S_FALSE {
      return Printed([], Raise(ChildrenEnumErr, DxDiaCpp, 152));
    }
    var out := [Header(ident, prefix, s.addr, s.parentAddr, name, sST)];
    assert out == [SymbolHeader(s, ident, prefix)];
    if !Answered(s.valueHr) {
      return Printed(out, Raise(ChildrenEnumErr, DxDiaCpp, 168));
    }
    if s.valueHr == S_OK {
      out := out + [ValueText(ValueSuffix(s.value))];
    }
    assert out == SymbolLine(s, ident, prefix);
    if s.childrenHr == S_OK {
      out := out + [NewLine];
      var children := FindChildrenAndPrint(s.children, ident + "  ", prefix);
      return Printed(out + children.out, children.status);
    } else if s.childrenHr == E_NOTIMPL || s.childrenHr == S_FALSE {
      return Printed(out, Ok(()));
    }
    return Printed(out, Raise(ChildrenEnumErr, DxDiaCpp, 192));
  }

  method FindChildrenAndPrint(e: Enumerator, ident: string, prefix: string) returns (p: Printed)
    ensures p == ChildrenOutput(e, 0, ident, prefix)
    decreases e, |e.fetches| + 1
  {
    var out: seq<Write> := [];
    var done := false;
    var sCount := 1;
    while !done
      invariant 1 <= sCount <= |e.fetches| + 2
      invariant !done ==> sCount <= |e.fetches| + 1
      invariant !done ==>
        Then(Printed(out, Ok(())), ChildrenOutput(e, sCount - 1, ident, prefix)) == ChildrenOutput(e, 0, ident, prefix)
      invariant done ==> Printed(out, Ok(())) == ChildrenOutput(e, 0, ident, prefix)
      decreases (if done then 0 else 1), |e.fetches| + 1 - sCount
    {
      ghost var before := Printed(out, Ok(()));
      var index := sCount - 1;
      var hr := S_FALSE;
      var item: Option<Symbol> := None;
      if index < |e.fetches| {
        hr := e.fetches[index].hr;
        item := e.fetches[index].item;
      }
      if hr == S_FALSE {
        done := true;
      } else if hr != S_OK {
        return Printed(out, Raise(ChildrenEnumErr, DxDiaCpp, 111));
      }
      ghost var here := Done;
      if item.Some? {
        var child := PrintSymbol(item.value, ident + "  ", ChildLabel(prefix, index));
        here := Then(child, Printed([NewLine], Ok(())));
        if !child.status.Ok? {
          ChildrenAdvance(e, index, ident, prefix, before, here, Then(before, here));
          return Printed(out + child.out, child.status);
        }
        ThenAppends(out, child);
        out := out + child.out + [NewLine];
      } else {
        assert out + [] == out;
      }
      if index < |e.fetches| {
        ChildrenAdvance(e, index, ident, prefix, before, here, Printed(out, Ok(())));
      }
      sCount := sCount + 1;
    }
    return Printed(out, Ok(()));
  }

  /** One Next call of FindChildrenAndPrint, given what printing its item wrote. */
  lemma ChildrenStep(e: Enumerator, index: nat, ident: string, prefix: string, here: Printed)
    requires index < |e.fetches| && Answered(e.fetches[index].hr)
    requires here == if e.fetches[index].item.None? then Done
                     else Then(SymbolOutput(e.fetches[index].item.value, ident + "  ", ChildLabel(prefix, index)),
                               Printed([NewLine], Ok(())))
    ensures e.fetches[index].hr == S_FALSE ==> ChildrenOutput(e, index, ident, prefix) == here
    ensures e.fetches[index].hr == S_OK ==>
              ChildrenOutput(e, index, ident, prefix) == Then(here, ChildrenOutput(e, index + 1, ident, prefix))
  {
  }

  /** The loop invariant of FindChildrenAndPrint carried over one Next call. */
  lemma ChildrenAdvance(e: Enumerator, index: nat, ident: string, prefix: string, before: Printed, here: Printed, after: Printed)
    requires index < |e.fetches| && Answered(e.fetches[index].hr)
    requires here == if e.fetches[index].item.None? then Done
                     else Then(SymbolOutput(e.fetches[index].item.value, ident + "  ", ChildLabel(prefix, index)),
                               Printed([NewLine], Ok(())))
    requires before.status.Ok? && after == Then(before, here)
    requires Then(before, ChildrenOutput(e, index, ident, prefix)) == ChildrenOutput(e, 0, ident, prefix)
    ensures e.fetches[index].hr == S_FALSE || !here.status.Ok? ==> after == ChildrenOutput(e, 0, ident, prefix)
    ensures e.fetches[index].hr == S_OK ==>
              Then(after, ChildrenOutput(e, index + 1, ident, prefix)) == ChildrenOutput(e, 0, ident, prefix)
  {
    ChildrenStep(e, index, ident, prefix, here);
    ThenAssoc(before, here, ChildrenOutput(e, index + 1, ident, prefix));
  }

  /** One Next call of the tables loop, given what printing its table wrote. */
  lemma TablesStep(e: TableEnumerator, index: nat, here: Printed)
    requires index < |e.fetches| && Answered(e.fetches[index].hr)
    requires here == if e.fetches[index].item.None? then Done
                     else TableOutput(e.fetches[index].item.value, "", NatToString(index + 1))
    ensures e.fetches[index].hr == S_FALSE ==> TablesOutput(e, index) == here
    ensures e.fetches[index].hr == S_OK ==> TablesOutput(e, index) == Then(here, TablesOutput(e, index + 1))
  {
  }

  lemma ThenAppends(out: seq<Write>, child: Printed)
    requires child.status.Ok?
    ensures Then(Printed(out, Ok(())), Then(child, Printed([NewLine], Ok(())))) ==
            Printed(out + child.out + [NewLine], Ok(()))
  {
    assert out + (child.out + [NewLine]) == out + child.out + [NewLine];
  }

  lemma ThenAssoc(a: Printed, b: Printed, c: Printed)
    ensures Then(Then(a, b), c) == Then(a, Then(b, c))
  {
  }

  method PrintTable(t: Table, ident: string, prefix: string) returns (p: Printed)
    ensures p == TableOutput(t, ident, prefix)
  {
    if t.nameHr != S_OK {
      return Printed([], Raise(ChildrenEnumErr, DxDiaCpp, 206));
    }
    var out := [TableHeader(ident, prefix, t.name)];
    if t.symbols.None? {
      return Printed(out, Ok(()));
    }
    var symbols := FindChildrenAndPrint(t.symbols.value, ident, prefix);
    return Printed(out + symbols.out, symbols.status);
  }

  method ProcessDiaDataSource(open: SessionOpen, query: string) returns (p: Printed)
    ensures p == QueryOutput(open, query)
  {
    if open.hr != S_OK {
      return Printed([], Raise(SessionCreationErr, DxDiaCpp, 221));
    }
    var tokens := SplitString(query);
    if tokens == [] {
      return Printed([Message(NoQueryMessage)], OutOfBoundsRead);
    }
    if tokens[0] == "tables" {
      if |tokens| > 1 {
        return Printed([], Raise(QueryErr, DxDiaCpp, 234));
      }
      if open.session.tablesHr != S_OK {
        return Printed([], Raise(ChildrenEnumErr, DxDiaCpp, 239));
      }
      var tables := open.session.tables;
      var out: seq<Write> := [];
      var done := false;
      var tCount := 1;
      while !done
        invariant 1 <= tCount <= |tables.fetches| + 2
        invariant !done ==> tCount <= |tables.fetches| + 1
        invariant !done ==> Then(Printed(out, Ok(())), TablesOutput(tables, tCount - 1)) == TablesOutput(tables, 0)
        invariant done ==> Printed(out, Ok(())) == TablesOutput(tables, 0)
        decreases (if done then 0 else 1), |tables.fetches| + 1 - tCount
      {
        ghost var before := Printed(out, Ok(()));
        var index := tCount - 1;
        var hr := S_FALSE;
        var item: Option<Table> := None;
        if index < |tables.fetches| {
          hr := tables.fetches[index].hr;
          item := tables.fetches[index].item;
        }
        if hr == S_FALSE {
          done := true;
        } else if hr != S_OK {
          return Printed(out, Raise(ChildrenEnumErr, DxDiaCpp, 254));
        }
        ghost var here := Done;
        if item.Some? {
          var table := PrintTable(item.value, "", NatToString(tCount));
          here := table;
          if !table.status.Ok? {
            TablesStep(tables, index, here);
            return Printed(out + table.out, table.status);
          }
          assert table.status.value == ();
          out := out + table.out;
        }
        assert Printed(out, Ok(())) == Then(before, here);
        if index < |tables.fetches| {
          TablesStep(tables, index, here);
          if !done {
            ThenAssoc(before, here, TablesOutput(tables, index + 1));
          }
        }
        tCount := tCount + 1;
      }
      return Printed(out, Ok(()));
    } else if tokens[0] == "@" {
      if |tokens| > 1 {
        return Printed([], Raise(QueryErr, DxDiaCpp, 263));
      }
      if open.session.globalHr != S_OK {
        return Printed([], Raise(ChildrenEnumErr, DxDiaCpp, 268));
      }
      p := PrintSymbol(open.session.globalScope, "", "@");
      return p;
    }
    return Done;
  }

  // ---------------------------------------------------------------------
  // Errors raised by the walk

  /** Every error the walk of a symbol raises is ChildrenEnumErr. */
  lemma {:induction false} SymbolErrors(s: Symbol, ident: string, prefix: string)
    ensures SymbolOutput(s, ident, prefix).status.Fail? ==>
              SymbolOutput(s, ident, prefix).status.error.kind == ChildrenEnumErr
    ensures !SymbolOutput(s, ident, prefix).status.OutOfBoundsRead?
    decreases s
  {
    if s.childrenHr == S_OK {
      ChildrenErrors(s.children, 0, ident + "  ", prefix);
    }
  }

  /** Every error the walk of an enumerator raises is ChildrenEnumErr. */
  lemma {:induction false} ChildrenErrors(e: Enumerator, index: nat, ident: string, prefix: string)
    requires index <= |e.fetches|
    ensures ChildrenOutput(e, index, ident, prefix).status.Fail? ==>
              ChildrenOutput(e, index, ident, prefix).status.error.kind == ChildrenEnumErr
    ensures !ChildrenOutput(e, index, ident, prefix).status.OutOfBoundsRead?
    decreases e, |e.fetches| - index
  {
    if index < |e.fetches| {
      var f := e.fetches[index];
      if f.item.Some? {
        SymbolErrors(f.item.value, ident + "  ", ChildLabel(prefix, index));
      }
      if f.hr == S_OK {
        ChildrenErrors(e, index + 1, ident, prefix);
      }
    }
  }

  /** Every error the tables loop raises is ChildrenEnumErr. */
  lemma {:induction false} TablesErrors(e: TableEnumerator, index: nat)
    requires index <= |e.fetches|
    ensures TablesOutput(e, index).status.Fail? ==> TablesOutput(e, index).status.error.kind == ChildrenEnumErr
    ensures !TablesOutput(e, index).status.OutOfBoundsRead?
    decreases |e.fetches| - index
  {
    if index < |e.fetches| {
      var f := e.fetches[index];
      if f.item.Some? && f.item.value.nameHr == S_OK && f.item.value.symbols.Some? {
        ChildrenErrors(f.item.value.symbols.value, 0, "", NatToString(index + 1));
      }
      if f.hr == S_OK {
        TablesErrors(e, index + 1);
      }
    }
  }

  // ---------------------------------------------------------------------
  // When the walk succeeds

  /** Whether a getter's answer lets the walk go on. */
  predicate ChildrenAnswered(hr: HResult) {
    hr == S_OK || hr == S_FALSE || hr == E_NOTIMPL
  }

  /**
   * Whether every getter of the symbol and of everything below it that the
   * walk calls answers something the walk accepts.
   */
  predicate SymbolWalkable(s: Symbol)
    decreases s
  {
    Answered(s.parentHr) && Answered(s.nameHr) && Answered(s.tagHr) && Answered(s.valueHr) &&
    ChildrenAnswered(s.childrenHr) &&
    (s.childrenHr == S_OK ==> EnumWalkable(s.children, 0))
  }

  /** Whether no Next call before the index-th, from start on, ended the enumeration. */
  predicate Reached(e: Enumerator, start: nat, index: nat) {
    forall k :: start <= k < index && k < |e.fetches| ==> e.fetches[k].hr != S_FALSE
  }

  /** Whether every Next call the walk makes, and every symbol it fetches, is accepted. */
  predicate EnumWalkable(e: Enumerator, start: nat)
    decreases e, 0
  {
    forall j :: start <= j < |e.fetches| && Reached(e, start, j) ==>
      Answered(e.fetches[j].hr) &&
      (e.fetches[j].item.Some? ==> SymbolWalkable(e.fetches[j].item.value))
  }

  /** The walk of a symbol ends normally exactly when every answer it reads is accepted. */
  lemma {:induction false} SymbolSucceeds(s: Symbol, ident: string, prefix: string)
    ensures SymbolOutput(s, ident, prefix).status.Ok? <==> SymbolWalkable(s)
    decreases s
  {
    if s.childrenHr == S_OK {
      ChildrenSucceed(s.children, 0, ident + "  ", prefix);
    }
  }

  lemma {:induction false} ChildrenSucceed(e: Enumerator, index: nat, ident: string, prefix: string)
    requires index <= |e.fetches|
    ensures ChildrenOutput(e, index, ident, prefix).status.Ok? <==> EnumWalkable(e, index)
    decreases e, |e.fetches| - index
  {
    if index < |e.fetches| {
      var f := e.fetches[index];
      EnumWalkableStep(e, index);
      if f.item.Some? {
        SymbolSucceeds(f.item.value, ident + "  ", ChildLabel(prefix, index));
      }
      if f.hr == S_OK {
        ChildrenSucceed(e, index + 1, ident, prefix);
      }
    }
  }

  /** The enumerator is walkable from an index when its answer there is, and so is the rest unless it ended. */
  lemma EnumWalkableStep(e: Enumerator, index: nat)
    requires index < |e.fetches|
    ensures EnumWalkable(e, index) <==>
            Answered(e.fetches[index].hr) &&
            (e.fetches[index].item.Some? ==> SymbolWalkable(e.fetches[index].item.value)) &&
            (e.fetches[index].hr != S_FALSE ==> EnumWalkable(e, index + 1))
  {
    var f := e.fetches[index];
    assert Reached(e, index, index);
    if f.hr != S_FALSE {
      forall j | index + 1 <= j < |e.fetches|
        ensures Reached(e, index, j) <==> Reached(e, index + 1, j)
      {
      }
    }
  }

  // ---------------------------------------------------------------------
  // Labels and indentation

  /** How many '.' a string holds. */
  function Dots(s: string): nat
    decreases |s|
  {
    if s == [] then 0 else (if s[0] == '.' then 1 else 0) + Dots(s[1..])
  }

  lemma {:induction false} DotsAppend(a: string, b: string)
    ensures Dots(a + b) == Dots(a) + Dots(b)
    decreases |a|
  {
    if a != [] {
      assert a + b != [] && (a + b)[0] == a[0] && (a + b)[1..] == a[1..] + b;
      DotsAppend(a[1..], b);
      assert Dots(a + b) == (if a[0] == '.' then 1 else 0) + Dots(a[1..] + b);
    } else {
      assert a + b == b;
    }
  }

  lemma {:induction false} DigitsHaveNoDots(s: string)
    requires AllDigits(s)
    ensures Dots(s) == 0
    decreases |s|
  {
    if s != [] {
      DigitsHaveNoDots(s[1..]);
    }
  }

  lemma SpacesAppend(a: nat, b: nat)
    ensures Spaces(a) + Spaces(b) == Spaces(a + b)
  {
  }

  /**
   * A symbol line's label extends the walk's prefix by one ".k" per step
   * down the tree, and its indentation is the walk's plus four spaces per
   * step; below an enumerator, two fewer, since the first step's second
   * pair of spaces is the enumerator's own.
   */
  predicate Indented(w: Write, ident: string, prefix: string, below: bool) {
    w.Header? ==>
      prefix <= w.path &&
      var depth := Dots(w.path[|prefix|..]);
      if below then depth >= 1 && w.indent == ident + "  " + Spaces(4 * (depth - 1))
      else w.indent == ident + Spaces(4 * depth)
  }

  predicate AllIndented(out: seq<Write>, ident: string, prefix: string, below: bool) {
    forall j :: 0 <= j < |out| ==> Indented(out[j], ident, prefix, below)
  }

  /** A child's lines, seen from its parent's enumerator. */
  lemma ChildIndented(w: Write, ident: string, prefix: string, index: nat)
    requires Indented(w, ident + "  ", ChildLabel(prefix, index), false)
    ensures Indented(w, ident, prefix, true)
  {
    if w.Header? {
      var childLabel := ChildLabel(prefix, index);
      var k := NatToString(index + 1);
      assert w.path[..|childLabel|] == childLabel;
      assert w.path[|prefix|..] == "." + k + w.path[|childLabel|..];
      DotsAppend("." + k, w.path[|childLabel|..]);
      DotsAppend(".", k);
      DigitsHaveNoDots(k);
    }
  }

  /** An enumerator's lines, seen from the symbol that owns it. */
  lemma EnumIndented(w: Write, ident: string, prefix: string)
    requires Indented(w, ident + "  ", prefix, true)
    ensures Indented(w, ident, prefix, false)
  {
    if w.Header? {
      var depth := Dots(w.path[|prefix|..]);
      SpacesAppend(2, 4 * (depth - 1));
      assert "  " + "  " == Spaces(4);
      SpacesAppend(4, 4 * (depth - 1));
    }
  }

  lemma {:induction false} SymbolIndentation(s: Symbol, ident: string, prefix: string)
    ensures AllIndented(SymbolOutput(s, ident, prefix).out, ident, prefix, false)
    decreases s
  {
    var out := SymbolOutput(s, ident, prefix).out;
    assert prefix[|prefix|..] == [];
    assert ident + Spaces(0) == ident;
    if Answered(s.parentHr) && Answered(s.nameHr) && Answered(s.tagHr) && Answered(s.valueHr) &&
       s.childrenHr == S_OK {
      var children := ChildrenOutput(s.children, 0, ident + "  ", prefix);
      ChildrenIndentation(s.children, 0, ident + "  ", prefix);
      forall j | 0 <= j < |children.out|
        ensures Indented(children.out[j], ident, prefix, false)
      {
        EnumIndented(children.out[j], ident, prefix);
      }
    }
  }

  lemma {:induction false} ChildrenIndentation(e: Enumerator, index: nat, ident: string, prefix: string)
    requires index <= |e.fetches|
    ensures AllIndented(ChildrenOutput(e, index, ident, prefix).out, ident, prefix, true)
    decreases e, |e.fetches| - index
  {
    if index < |e.fetches| {
      var f := e.fetches[index];
      if f.item.Some? {
        var child := SymbolOutput(f.item.value, ident + "  ", ChildLabel(prefix, index));
        SymbolIndentation(f.item.value, ident + "  ", ChildLabel(prefix, index));
        forall j | 0 <= j < |child.out|
          ensures Indented(child.out[j], ident, prefix, true)
        {
          ChildIndented(child.out[j], ident, prefix, index);
        }
      }
      if f.hr == S_OK {
        ChildrenIndentation(e, index + 1, ident, prefix);
      }
    }
  }

  /**
   * After a table's name line, every symbol line is labelled below the
   * table's number and indented two spaces plus four per further level.
   */
  lemma TableSymbolsIndentation(t: Table, prefix: string)
    requires t.nameHr == S_OK && t.symbols.Some?
    ensures var out := TableOutput(t, "", prefix).out;
            out[0] == TableHeader("", prefix, t.name) &&
            forall j :: 1 <= j < |out| ==> Indented(out[j], "", prefix, true)
  {
    var children := ChildrenOutput(t.symbols.value, 0, "", prefix);
    ChildrenIndentation(t.symbols.value, 0, "", prefix);
    var out := TableOutput(t, "", prefix).out;
    forall j | 1 <= j < |out|
      ensures Indented(out[j], "", prefix, true)
    {
      assert out[j] == children.out[j - 1];
    }
  }

  // ---------------------------------------------------------------------
  // The enumeration loop

  /** A Next call that fetches nothing still uses up a label number. */
  lemma EmptyFetchUsesLabel(e: Enumerator, index: nat, ident: string, prefix: string)
    requires index < |e.fetches| && e.fetches[index] == Fetch(S_OK, None)
    ensures ChildrenOutput(e, index, ident, prefix) == ChildrenOutput(e, index + 1, ident, prefix)
  {
    assert Then(Done, ChildrenOutput(e, index + 1, ident, prefix)).out ==
           ChildrenOutput(e, index + 1, ident, prefix).out;
  }

  /** The k-th Next call's symbol (1-based) is labelled prefix.k, one level deeper. */
  lemma FetchedChildLabel(e: Enumerator, index: nat, ident: string, prefix: string)
    requires index < |e.fetches| && Answered(e.fetches[index].hr) && e.fetches[index].item.Some?
    requires SymbolOutput(e.fetches[index].item.value, ident + "  ", ChildLabel(prefix, index)).out != []
    ensures var out := ChildrenOutput(e, index, ident, prefix).out;
            var s := e.fetches[index].item.value;
            out != [] &&
            out[0] == Header(ident + "  ", prefix + "." + NatToString(index + 1), s.addr, s.parentAddr,
                             NameText(s), TagText(s))
  {
  }

  /** The k-th table the enumerator yields (1-based) is printed first, labelled k. */
  lemma TableLabel(e: TableEnumerator, index: nat)
    requires index < |e.fetches| && Answered(e.fetches[index].hr) && e.fetches[index].item.Some?
    requires e.fetches[index].item.value.nameHr == S_OK
    ensures var out := TablesOutput(e, index).out;
            out != [] && out[0] == TableHeader("", NatToString(index + 1), e.fetches[index].item.value.name)
  {
  }

  /** S_FALSE ends the loop: no later answer of the enumerator is read. */
  lemma FalseEndsEnumeration(e: Enumerator, index: nat, ident: string, prefix: string, later: seq<Fetch>)
    requires index < |e.fetches| && e.fetches[index].hr == S_FALSE
    ensures ChildrenOutput(e, index, ident, prefix) ==
            ChildrenOutput(Enumerator(e.fetches[..index + 1] + later), index, ident, prefix)
  {
    var e' := Enumerator(e.fetches[..index + 1] + later);
    assert e'.fetches[index] == e.fetches[index];
  }

  /** An answer other than S_OK and S_FALSE ends the walk with ChildrenEnumErr and prints nothing more. */
  lemma FailedNextRaises(e: Enumerator, index: nat, ident: string, prefix: string)
    requires index < |e.fetches| && !Answered(e.fetches[index].hr)
    ensures ChildrenOutput(e, index, ident, prefix) == Printed([], Raise(ChildrenEnumErr, DxDiaCpp, 111))
  {
  }

  /** A symbol without children, or whose findChildren is not implemented, is a leaf. */
  lemma LeafSymbol(s: Symbol, ident: string, prefix: string)
    requires SymbolWalkable(s) && (s.childrenHr == S_FALSE || s.childrenHr == E_NOTIMPL)
    ensures var out := SymbolOutput(s, ident, prefix).out;
            1 <= |out| <= 2 && out[0].Header? && (|out| == 2 <==> s.valueHr == S_OK) &&
            forall j :: 0 <= j < |out| ==> !out[j].NewLine?
  {
  }

  /** The lexical parent is printed, but does not change what else is printed or the outcome. */
  lemma ParentDoesNotSteer(s: Symbol, ident: string, prefix: string, parentHr: HResult, parentAddr: string)
    requires Answered(s.parentHr) && Answered(parentHr)
    ensures var a := SymbolOutput(s, ident, prefix);
            var b := SymbolOutput(s.(parentHr := parentHr, parentAddr := parentAddr), ident, prefix);
            a.status == b.status && |a.out| == |b.out| &&
            (a.out != [] ==> a.out[1..] == b.out[1..] && b.out[0] == a.out[0].(parentAddr := parentAddr))
  {
    var s' := s.(parentHr := parentHr, parentAddr := parentAddr);
    if Answered(s.nameHr) && Answered(s.tagHr) {
      var h := SymbolHeader(s, ident, prefix);
      var h' := SymbolHeader(s', ident, prefix);
      assert h' == h.(parentAddr := parentAddr);
      if Answered(s.valueHr) {
        var tail := if s.valueHr == S_OK then [ValueText(ValueSuffix(s.value))] else [];
        assert SymbolLine(s, ident, prefix) == [h] + tail;
        assert SymbolLine(s', ident, prefix) == [h'] + tail;
        if s.childrenHr == S_OK {
          HeadOnlyDiffers(h, h', tail, ChildrenOutput(s.children, 0, ident + "  ", prefix).out);
        }
      }
    }
  }

  /** Two outputs that differ only in their first line agree after it. */
  lemma HeadOnlyDiffers(h: Write, h': Write, tail: seq<Write>, more: seq<Write>)
    ensures |[h] + tail + [NewLine] + more| == |[h'] + tail + [NewLine] + more|
    ensures ([h] + tail + [NewLine] + more)[1..] == ([h'] + tail + [NewLine] + more)[1..]
  {
    assert ([h] + tail + [NewLine] + more)[1..] == tail + [NewLine] + more;
    assert ([h'] + tail + [NewLine] + more)[1..] == tail + [NewLine] + more;
  }

  // ---------------------------------------------------------------------
  // Value rendering

  /** Each rendering of a value can be read back to the value it shows. */
  lemma ValueSuffixShowsValue(v: Variant)
    ensures var t := ValueSuffix(v);
            (v.vt == VT_EMPTY ==> t == "([vt] 0)") &&
            (v.vt == VT_BSTR ==> t[..2] == ": " && t[2..] == v.bstrVal) &&
            (v.vt == VT_I4 ==> t[..2] == ": " && ParseInt(t[2..]) == Some(v.intVal as int)) &&
            (v.vt == VT_UI4 ==> t[..2] == ": " && AllDigits(t[2..]) && ParseNat(t[2..]) == v.uintVal) &&
            (v.vt !in {VT_EMPTY, VT_BSTR, VT_I4, VT_UI4} ==>
               |t| > 12 && t[..11] == ": ??? ([vt]" && t[|t| - 1] == ')' &&
               AllDigits(t[11..|t| - 1]) && ParseNat(t[11..|t| - 1]) == v.vt)
  {
    var t := ValueSuffix(v);
    if v.vt == VT_BSTR || v.vt == VT_I4 || v.vt == VT_UI4 {
      assert t[2..] == if v.vt == VT_BSTR then v.bstrVal
                       else if v.vt == VT_I4 then IntToString(v.intVal) else NatToString(v.uintVal);
    } else if v.vt != VT_EMPTY {
      assert t[11..|t| - 1] == NatToString(v.vt);
    }
  }

  /** A tag outside the 32-bit signed range's upper half is shown as a negative number. */
  lemma WideTagIsNegative(dword: uint32)
    requires dword >= 0x8000_0000
    ensures AsSymTagEnum(dword) < 0 && AsSymTagEnum(dword) as int + 0x1_0000_0000 == dword
  {
  }

  // ---------------------------------------------------------------------
  // Splitting and dispatching the query

  predicate NoDelimiter(s: string) {
    forall i :: 0 <= i < |s| ==> s[i] != QueryDelimiter
  }

  /** The query with every '.' removed. */
  function WithoutDelimiters(s: string): string
    decreases |s|
  {
    if s == [] then [] else (if s[0] == QueryDelimiter then [] else [s[0]]) + WithoutDelimiters(s[1..])
  }

  function Concat(tokens: seq<string>): string
    decreases |tokens|
  {
    if tokens == [] then [] else tokens[0] + Concat(tokens[1..])
  }

  lemma {:induction false} ConcatAppend(a: seq<string>, b: seq<string>)
    ensures Concat(a + b) == Concat(a) + Concat(b)
    decreases |a|
  {
    if a != [] {
      assert a + b != [] && (a + b)[0] == a[0] && (a + b)[1..] == a[1..] + b;
      ConcatAppend(a[1..], b);
      assert Concat(a + b) == a[0] + Concat(a[1..] + b);
    } else {
      assert a + b == b;
    }
  }

  /**
   * Splitting yields non-empty tokens free of '.', which together hold
   * exactly the query's other characters, in order.
   */
  lemma {:induction false} SplitFromTokens(s: string, current: string)
    requires NoDelimiter(current)
    ensures forall k :: 0 <= k < |SplitFrom(s, current)| ==>
              SplitFrom(s, current)[k] != [] && NoDelimiter(SplitFrom(s, current)[k])
    ensures Concat(SplitFrom(s, current)) == current + WithoutDelimiters(s)
    decreases |s|
  {
    var head: seq<string> := if current == [] then [] else [current];
    assert Concat(head) == current by {
      if current != [] { assert Concat([current]) == current + Concat([]); }
    }
    if s == [] {
    } else if s[0] == QueryDelimiter {
      SplitFromTokens(s[1..], []);
      ConcatAppend(head, SplitFrom(s[1..], []));
      var rest := SplitFrom(s[1..], []);
      assert SplitFrom(s, current) == head + rest;
      forall k | 0 <= k < |head + rest|
        ensures (head + rest)[k] != [] && NoDelimiter((head + rest)[k])
      {
        if k >= |head| { assert (head + rest)[k] == rest[k - |head|]; }
      }
    } else {
      SplitFromTokens(s[1..], current + [s[0]]);
    }
  }

  /** A run without '.' is read whole into the current token. */
  lemma {:induction false} SplitWord(s: string, current: string, rest: string)
    requires NoDelimiter(s) && current + s != []
    requires rest == [] || rest[0] == QueryDelimiter
    ensures SplitFrom(s + rest, current) ==
            (if rest == [] then [current + s] else [current + s] + SplitFrom(rest[1..], []))
    decreases |s|
  {
    if s != [] {
      assert (s + rest)[0] == s[0] && (s + rest)[1..] == s[1..] + rest;
      assert current + [s[0]] + s[1..] == current + s;
      if s[1..] == [] {
        assert current + [s[0]] == current + s;
      }
      SplitWord(s[1..], current + [s[0]], rest);
    } else {
      assert current + s == current && s + rest == rest;
    }
  }

  /** A non-empty run without '.' is a single token: the tokens are maximal runs. */
  lemma SplitRun(s: string)
    requires s != [] && NoDelimiter(s)
    ensures SplitString(s) == [s]
  {
    SplitWord(s, [], []);
    assert s + [] == s && [] + s == s;
  }

  /** Every '.' separates: splitting at one splits the two sides independently. */
  lemma {:induction false} SplitFromAtDelimiter(a: string, b: string, current: string)
    ensures SplitFrom(a + [QueryDelimiter] + b, current) == SplitFrom(a, current) + SplitFrom(b, [])
    decreases |a|
  {
    var whole := a + [QueryDelimiter] + b;
    var head: seq<string> := if current == [] then [] else [current];
    if a == [] {
      assert whole[0] == QueryDelimiter && whole[1..] == b;
      assert SplitFrom(whole, current) == head + SplitFrom(b, []);
    } else {
      assert whole[0] == a[0] && whole[1..] == a[1..] + [QueryDelimiter] + b;
      if a[0] == QueryDelimiter {
        SplitFromAtDelimiter(a[1..], b, []);
        assert SplitFrom(whole, current) == head + SplitFrom(a[1..] + [QueryDelimiter] + b, []);
      } else {
        SplitFromAtDelimiter(a[1..], b, current + [a[0]]);
      }
    }
  }

  lemma SplitAtDelimiter(a: string, b: string)
    ensures SplitString(a + [QueryDelimiter] + b) == SplitString(a) + SplitString(b)
  {
    SplitFromAtDelimiter(a, b, []);
  }

  lemma SplitExamples()
    ensures SplitString("tables") == ["tables"]
    ensures SplitString("@") == ["@"]
    ensures SplitString("@.x") == ["@", "x"]
    ensures SplitString("") == []
  {
    SplitRun("tables");
    SplitRun("@");
    SplitRun("x");
    SplitAtDelimiter("@", "x");
    assert "@" + [QueryDelimiter] + "x" == "@.x";
  }

  /** The session is opened before the query is looked at. */
  lemma SessionFirst(open: SessionOpen, query: string, query': string)
    requires open.hr != S_OK
    ensures QueryOutput(open, query) == QueryOutput(open, query')
    ensures QueryOutput(open, query) == Printed([], Raise(SessionCreationErr, DxDiaCpp, 221))
  {
  }

  /** "tables" or "@" followed by any further token is a query error. */
  lemma ExtraTokensAreQueryErrors(open: SessionOpen, query: string)
    requires open.hr == S_OK
    requires |SplitString(query)| > 1 && SplitString(query)[0] in {"tables", "@"}
    ensures QueryOutput(open, query).out == []
    ensures QueryOutput(open, query).status.Fail?
    ensures QueryOutput(open, query).status.error.kind == QueryErr
  {
  }

  /** Any other first token prints nothing and raises nothing. */
  lemma OtherQueriesDoNothing(open: SessionOpen, query: string)
    requires open.hr == S_OK
    requires SplitString(query) != [] && SplitString(query)[0] !in {"tables", "@"}
    ensures QueryOutput(open, query) == Done
  {
  }

  /** A query with no token prints its message and then reads past the end of the token list. */
  lemma EmptyQueryReadsOutOfBounds(open: SessionOpen, query: string)
    requires open.hr == S_OK && WithoutDelimiters(query) == []
    ensures QueryOutput(open, query) == Printed([Message(NoQueryMessage)], OutOfBoundsRead)
  {
    if SplitString(query) != [] {
      assert false;
    }
  }

  /** The errors a query can end with, and when it reads out of bounds. */
  lemma QueryErrors(open: SessionOpen, query: string)
    ensures QueryOutput(open, query).status.Fail? ==>
              QueryOutput(open, query).status.error.kind in {SessionCreationErr, QueryErr, ChildrenEnumErr}
    ensures QueryOutput(open, query).status.OutOfBoundsRead? <==> open.hr == S_OK && SplitString(query) == []
  {
    TablesErrors(open.session.tables, 0);
    SymbolErrors(open.session.globalScope, "", "@");
  }

  // A global scope with one leaf child.
  const ExampleLeaf := Symbol("C", S_OK, "G", S_OK, Some("c"), S_OK, 5, S_FALSE, Variant(0, "", 0, 0),
                              S_FALSE, Enumerator([]))
  const ExampleGlobal := Symbol("G", S_FALSE, "0", S_OK, Some("g"), S_OK, 1, S_FALSE, Variant(0, "", 0, 0),
                                S_OK, Enumerator([Fetch(S_OK, Some(ExampleLeaf)), Fetch(S_FALSE, None)]))

  lemma ExampleWalk()
    ensures SymbolOutput(ExampleGlobal, "", "@") ==
            Printed([Header("", "@", "G", "0", "g", "Exe"), NewLine,
                     Header("    ", "@.1", "C", "G", "c", "Function"), NewLine], Ok(()))
  {
    var children := ExampleGlobal.children;
    SymTagToStrListed(SymTagExe);
    SymTagToStrListed(SymTagFunction);
    assert TagText(ExampleLeaf) == "Function" && TagText(ExampleGlobal) == "Exe";
    var h1 := Header("    ", "@.1", "C", "G", "c", "Function");
    var h0 := Header("", "@", "G", "0", "g", "Exe");
    assert ChildLabel("@", 0) == "@.1";
    assert SymbolOutput(ExampleLeaf, "    ", "@.1") == Printed([h1], Ok(()));
    assert ChildrenOutput(children, 1, "  ", "@") == Done;
    assert "  " + "  " == "    " && "" + "  " == "  ";
    var here := Then(SymbolOutput(ExampleLeaf, "    ", "@.1"), Printed([NewLine], Ok(())));
    assert here == Printed([h1, NewLine], Ok(()));
    assert Then(here, Done) == here;
    assert ChildrenOutput(children, 0, "  ", "@") == Printed([h1, NewLine], Ok(()));
    assert SymbolLine(ExampleGlobal, "", "@") == [h0];
    assert Then(Printed([h0] + [NewLine], Ok(())), Printed([h1, NewLine], Ok(()))) ==
           Printed([h0, NewLine, h1, NewLine], Ok(()));
  }

  lemma RenderCons(w: Write, rest: seq<Write>)
    ensures Render([w] + rest) == Text(w) + Render(rest)
  {
    assert ([w] + rest)[0] == w && ([w] + rest)[1..] == rest;
  }

  lemma ExampleTexts()
    ensures Text(Header("", "@", "G", "0", "g", "Exe")) == "@: G 0 g Exe"
    ensures Text(Header("    ", "@.1", "C", "G", "c", "Function")) == "    @.1: C G c Function"
  {
  }

  lemma ExampleRender()
    ensures Render([Header("", "@", "G", "0", "g", "Exe"), NewLine,
                    Header("    ", "@.1", "C", "G", "c", "Function"), NewLine]) ==
            "@: G 0 g Exe" + ("\n" + ("    @.1: C G c Function" + ("\n" + "")))
  {
    var h1 := Header("    ", "@.1", "C", "G", "c", "Function");
    var h0 := Header("", "@", "G", "0", "g", "Exe");
    ExampleTexts();
    RenderCons(NewLine, []);
    RenderCons(h1, [NewLine]);
    RenderCons(NewLine, [h1, NewLine]);
    RenderCons(h0, [NewLine, h1, NewLine]);
    assert [NewLine] + [] == [NewLine];
    assert [h1] + [NewLine] == [h1, NewLine];
    assert [NewLine] + [h1, NewLine] == [NewLine, h1, NewLine];
    assert [h0] + [NewLine, h1, NewLine] == [h0, NewLine, h1, NewLine];
  }

  /** The query "@" on that session prints the global scope, then its child four spaces in. */
  lemma GlobalScopeExample()
    ensures var p := QueryOutput(SessionOpen(S_OK, Session(S_OK, TableEnumerator([]), S_OK, ExampleGlobal)), "@");
            p.status == Ok(()) && Render(p.out) == "@: G 0 g Exe" + ("\n" + ("    @.1: C G c Function" + ("\n" + "")))
  {
    SplitExamples();
    ExampleWalk();
    ExampleRender();
  }
}
