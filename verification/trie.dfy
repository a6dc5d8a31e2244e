/** The phrase trie: a heap of nodes that grows in place and must find exactly the
    non-empty phrases that occur in a text. */
module PhraseTries {

  class TrieNode {
    var children: map<char, TrieNode>
    var outputs: seq<string>

    constructor ()
      ensures children == map[] && outputs == []
    {
      children := map[];
      outputs := [];
    }
  }

  predicate OccursAt(phrase: string, text: string, start: nat) {
    start + |phrase| <= |text| && text[start..start + |phrase|] == phrase
  }

  predicate Occurs(phrase: string, text: string) {
    exists start: nat :: start <= |text| && OccursAt(phrase, text, start)
  }

  predicate OccursBefore(phrase: string, text: string, end: nat) {
    exists start: nat :: start < end && OccursAt(phrase, text, start)
  }

  lemma NonEmptyOccurrence(phrase: string, text: string)
    requires phrase != ""
    ensures Occurs(phrase, text) <==> OccursBefore(phrase, text, |text|)
  {
  }

  /** The copies of `phrase` in the list, in order. */
  function Copies(phrases: seq<string>, phrase: string): (r: seq<string>)
    ensures forall x :: x in r <==> x == phrase && phrase in phrases
  {
    if phrases == [] then []
    else
      var n := |phrases| - 1;
      Copies(phrases[..n], phrase) + (if phrases[n] == phrase then [phrase] else [])
  }

  lemma {:induction false} CopiesAbsent(phrases: seq<string>, phrase: string)
    requires phrase !in phrases
    ensures Copies(phrases, phrase) == []
  {
    if phrases == [] {
    } else {
      CopiesAbsent(phrases[..|phrases| - 1], phrase);
    }
  }

  lemma LastAndRest(p: string, c: char, q: string, d: char)
    requires p + [c] == q + [d]
    ensures p == q && c == d
  {
    assert (p + [c])[..|p|] == p && (q + [d])[..|q|] == q;
  }

  class PhraseTrie {
    const root: TrieNode
    ghost var phrases: seq<string>
    /** The node that each path of characters from the root leads to. */
    ghost var nodes: map<string, TrieNode>

    ghost predicate ForwardLinked()
      reads this, nodes.Values
    {
      forall p, c {:trigger c in nodes[p].children} :: p in nodes && c in nodes[p].children ==>
        p + [c] in nodes && nodes[p].children[c] == nodes[p + [c]]
    }

    ghost predicate BackLinked()
      reads this, nodes.Values
    {
      forall p, c {:trigger p + [c]} :: p + [c] in nodes ==> p in nodes && c in nodes[p].children
    }

    /** The heap is the tree that `nodes` says, and every node reports the phrases
        that end at its path. */
    ghost predicate WellLinked()
      reads this, nodes.Values
    {
      && "" in nodes && nodes[""] == root
      && (forall p, q {:trigger nodes[p], nodes[q]} :: p in nodes && q in nodes && nodes[p] == nodes[q] ==> p == q)
      && ForwardLinked()
      && BackLinked()
      && (forall p {:trigger nodes[p].outputs} :: p in nodes ==> nodes[p].outputs == Copies(phrases, p))
      && (forall p :: p in phrases ==> p in nodes)
    }

    /** Every prefix of the phrase has a node. */
    ghost predicate Reaches(phrase: string, length: nat)
      requires length <= |phrase|
      reads this
    {
      forall k :: 0 <= k <= length ==> phrase[..k] in nodes
    }

    ghost predicate Valid()
      reads this, nodes.Values
    {
      && WellLinked()
      && forall p :: p in phrases ==> Reaches(p, |p|)
    }

    constructor (phraseList: seq<string>)
      ensures Valid() && phrases == phraseList && fresh(nodes.Values)
    {
      var node := new TrieNode();
      root := node;
      phrases := [];
      nodes := map["" := node];
      new;
      for i := 0 to |phraseList|
        invariant Valid() && phrases == phraseList[..i] && fresh(nodes.Values)
      {
        Insert(phraseList[i]);
        assert phraseList[..i + 1] == phraseList[..i] + [phraseList[i]];
      }
      assert phraseList[..|phraseList|] == phraseList;
    }

    method Insert(phrase: string)
      requires Valid()
      modifies this, nodes.Values
      ensures Valid() && phrases == old(phrases) + [phrase]
      ensures fresh(nodes.Values - old(nodes.Values))
    {
      var node := Descend(phrase);
      AddOutput(phrase, node);
    }

    /** The loop of `_insert`: walks down from the root, growing what is missing. */
    method Descend(phrase: string) returns (node: TrieNode)
      requires WellLinked()
      modifies this`nodes, nodes.Values
      ensures WellLinked() && old(nodes.Keys) <= nodes.Keys
      ensures Reaches(phrase, |phrase|) && phrase in nodes && node == nodes[phrase]
      ensures fresh(nodes.Values - old(nodes.Values))
    {
      node := root;
      assert phrase[..0] == "";
      for i := 0 to |phrase|
        invariant WellLinked() && old(nodes.Keys) <= nodes.Keys
        invariant Reaches(phrase, i) && node == nodes[phrase[..i]]
        invariant fresh(nodes.Values - old(nodes.Values))
      {
        node := SetDefault(phrase, i, node);
      }
      assert phrase[..|phrase|] == phrase;
    }

    /** `children.setdefault(character, TrieNode())`. */
    method SetDefault(phrase: string, i: nat, node: TrieNode) returns (next: TrieNode)
      requires WellLinked() && i < |phrase|
      requires Reaches(phrase, i) && node == nodes[phrase[..i]]
      modifies this`nodes, node`children
      ensures WellLinked() && old(nodes.Keys) <= nodes.Keys
      ensures Reaches(phrase, i + 1) && next == nodes[phrase[..i + 1]]
      ensures fresh(nodes.Values - old(nodes.Values))
    {
      var character := phrase[i];
      assert phrase[..i + 1] == phrase[..i] + [character];
      if character !in node.children {
        Extend(phrase[..i], node, character);
      }
      next := node.children[character];
    }

    method Extend(ghost path: string, node: TrieNode, character: char)
      requires WellLinked()
      requires path in nodes && node == nodes[path] && path + [character] !in nodes
      modifies this`nodes, node`children
      ensures WellLinked()
      ensures nodes.Keys == old(nodes.Keys) + {path + [character]}
      ensures fresh(nodes.Values - old(nodes.Values))
      ensures forall p :: p in old(nodes) ==> nodes[p] == old(nodes)[p]
    {
      var created := new TrieNode();
      node.children := node.children[character := created];
      nodes := nodes[path + [character] := created];
      assert Copies(phrases, path + [character]) == [] by {
        CopiesAbsent(phrases, path + [character]);
      }
      assert ForwardLinked() by {
        forall p, c | p in nodes && c in nodes[p].children
          ensures p + [c] in nodes && nodes[p].children[c] == nodes[p + [c]]
        {
          if p + [c] == path + [character] { LastAndRest(p, c, path, character); }
        }
      }
      assert BackLinked() by {
        forall p, c {:trigger p + [c]} | p + [c] in nodes
          ensures p in nodes && c in nodes[p].children
        {
          if p + [c] == path + [character] { LastAndRest(p, c, path, character); }
        }
      }
    }

    method AddOutput(phrase: string, node: TrieNode)
      requires WellLinked()
      requires phrase in nodes && node == nodes[phrase]
      modifies this`phrases, node`outputs
      ensures WellLinked() && phrases == old(phrases) + [phrase]
    {
      node.outputs := node.outputs + [phrase];
      phrases := phrases + [phrase];
    }

    method Find(text: string) returns (matches: set<string>)
      requires Valid()
      ensures forall p :: p in matches <==> p != "" && p in phrases && Occurs(p, text)
    {
      matches := {};
      for start := 0 to |text|
        invariant forall p :: p in matches <==> p != "" && p in phrases && OccursBefore(p, text, start)
      {
        var found := FindFrom(text, start);
        matches := matches + found;
      }
      forall p | p != "" && p in phrases ensures OccursBefore(p, text, |text|) <==> Occurs(p, text) {
        NonEmptyOccurrence(p, text);
      }
    }

    /** The inner loop of `find`: the walk from one start position. */
    method FindFrom(text: string, start: nat) returns (matches: set<string>)
      requires Valid() && start < |text|
      ensures forall p :: p in matches <==> p != "" && p in phrases && OccursAt(p, text, start)
    {
      matches := {};
      var node := root;
      assert text[start..start] == "";
      var i := start;
      while i < |text|
        invariant start <= i <= |text|
        invariant text[start..i] in nodes && node == nodes[text[start..i]]
        invariant forall p :: p in matches <==>
          p != "" && p in phrases && OccursAt(p, text, start) && start + |p| <= i
      {
        assert text[start..i + 1] == text[start..i] + [text[i]];
        if text[i] !in node.children {
          NothingBeyond(text, start, i);
          break;
        }
        node := node.children[text[i]];
        matches := matches + (set p | p in node.outputs);
        i := i + 1;
      }
    }

    /** A phrase that matches beyond `i` gives the walk a next node. */
    lemma PrefixHasNode(phrase: string, text: string, start: nat, i: nat)
      requires Valid() && start <= i < |text|
      requires phrase in phrases && OccursAt(phrase, text, start) && start + |phrase| > i
      ensures text[start..i] + [text[i]] in nodes
    {
      assert Reaches(phrase, |phrase|);
      assert phrase[..i + 1 - start] == text[start..i] + [text[i]];
    }

    lemma NothingBeyond(text: string, start: nat, i: nat)
      requires Valid() && start <= i < |text|
      requires text[start..i] + [text[i]] !in nodes
      ensures forall p :: p in phrases && OccursAt(p, text, start) ==> start + |p| <= i
    {
      forall p | p in phrases && OccursAt(p, text, start) ensures start + |p| <= i {
        if start + |p| > i { PrefixHasNode(p, text, start, i); }
      }
    }
  }
}
