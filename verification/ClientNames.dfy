/** Whatever bytes clients send, chosen names are single words, so only the default name is ever shared. */
module ClientNames {
  import opened Commands
  import opened Decimals
  import opened Printer
  import opened RegistryRuns
  import opened ClientLines
  import W = ServerWorld

  predicate ProperName(order: Order) {
    order.NameMe? ==> Token(order.name)
  }

  predicate ProperActs(acts: seq<Act>) {
    forall n :: 0 <= n < |acts| && acts[n].Did? ==> ProperName(acts[n].order)
  }

  lemma WordsAreTokens(line: string)
    ensures forall n :: 0 <= n < |Words(line)| ==> Token(Words(line)[n])
  {
    WordsAreWords(line);
    forall n | 0 <= n < |Words(line)| ensures Token(Words(line)[n]) { assert Word(Words(line)[n]); }
  }

  lemma OrderIsProper(line: string)
    ensures ProperName(OrderOf(line))
  {
    WordsAreTokens(WithoutReturn(line));
    WordsOrderIsProper(Words(WithoutReturn(line)), WithoutReturn(line));
  }

  lemma WordsOrderIsProper(words: seq<string>, line: string)
    requires forall n :: 0 <= n < |words| ==> Token(words[n])
    ensures ProperName(WordsOrder(words, line))
  {
    if WordsOrder(words, line).NameMe? { assert Token(words[1]); }
  }

  lemma {:induction false} WorkIsProper(read: Reader, t: Talk, id: int, lines: seq<string>, rest: string)
    requires ProperActs(t.acts) && forall n :: 0 <= n < |lines| ==> ProperName(read(lines[n]))
    ensures ProperActs(Work(read, t, id, lines, rest).acts)
    decreases |lines|
  {
    if lines != [] {
      var order := read(lines[0]);
      if order != Leave && order != Abort { WorkIsProper(read, t.(acts := t.acts + [Did(id, order)]), id, lines[1..], rest); }
    }
  }

  lemma {:induction false} HeardIsProper(events: seq<Happening>)
    ensures ProperActs(Heard(OrderOf, events).acts)
  {
    if events != [] {
      var t, e := Heard(OrderOf, events[..|events| - 1]), events[|events| - 1];
      HeardIsProper(events[..|events| - 1]);
      if e.Read? && e.id in t.buffers {
        var text := t.buffers[e.id] + e.bytes;
        forall n | 0 <= n < |Lines(text)| ensures ProperName(OrderOf(Lines(text)[n])) { OrderIsProper(Lines(text)[n]); }
        WorkIsProper(OrderOf, t, e.id, Lines(text), Unfinished(text));
      }
    }
  }

  lemma {:induction false} RenamesAreProper(acts: seq<Act>, opens: (nat, nat) -> bool)
    requires ProperActs(acts)
    ensures forall n :: 0 <= n < |Inputs(acts, opens)| && Inputs(acts, opens)[n].Rename? ==> Token(Inputs(acts, opens)[n].newName)
  {
    if acts != [] {
      RenamesAreProper(acts[..|acts| - 1], opens);
      var last := acts[|acts| - 1];
      assert last.Did? ==> ProperName(last.order);
    }
  }

  // In every run, over all the bytes clients may send, two of them share a name only if neither has chosen one.
  lemma NamesUnique(made: nat, events: seq<Happening>, opens: (nat, nat) -> bool)
    ensures UniqueNames(W.After(made, Inputs(Heard(OrderOf, events).acts, opens)).registry)
  {
    HeardIsProper(events);
    RenamesAreProper(Heard(OrderOf, events).acts, opens);
    W.NamesStayUnique(made, Inputs(Heard(OrderOf, events).acts, opens));
  }
}
