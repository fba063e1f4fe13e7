/** The main results about the URL parser, stated on the buffer alone. */
module UrlTheorems {
  import opened Options
  import opened UrlChars
  import opened UrlGrammar
  import opened UrlParse
  import opened UrlFields
  import HostPass = UrlHost

  /** A buffer is accepted exactly when it is the text of a valid tree. */
  lemma AcceptsExactly(b: string, connect: bool)
    ensures Parse(b, connect).Some? <==> exists t :: Valid(t, connect) && Print(t) == b
  {
    if Parse(b, connect).Some? {
      ParseExact(b, Parse(b, connect).value, connect);
    }
    forall t | Valid(t, connect) && Print(t) == b
      ensures Parse(b, connect).Some?
    {
      ParseExact(b, t, connect);
    }
  }

  /** No text is the text of two valid trees. */
  lemma Unambiguous(t: Target, t': Target, connect: bool)
    requires Valid(t, connect) && Valid(t', connect) && Print(t) == Print(t')
    ensures t == t'
  {
    ParseExact(Print(t), t, connect);
    ParseExact(Print(t), t', connect);
  }

  /** Of an accepted buffer every reported run is nonempty and in bounds, two runs lie in the order of
      their fields without overlap, and a byte in no run is a delimiter. */
  lemma AcceptedFields(b: string, connect: bool, f: UrlField, g: UrlField, k: nat)
    requires Parse(b, connect).Some?
    ensures var l := LayoutOf(Parse(b, connect).value);
            && (l.Get(f).Some? ==> 0 < l.Get(f).value.len && l.Get(f).value.off + l.Get(f).value.len <= |b|)
            && (l.Get(f).Some? && l.Get(g).Some? && Rank(f) < Rank(g) ==>
                  l.Get(f).value.off + l.Get(f).value.len <= l.Get(g).value.off)
            && (k < |b| && !Covered(l, k) ==> Delimiter(b[k]))
  {
    var t := Parse(b, connect).value;
    ParseExact(b, t, connect);
    if LayoutOf(t).Get(f).Some? {
      FieldText(t, f);
      if LayoutOf(t).Get(g).Some? && Rank(f) < Rank(g) {
        FieldsOrdered(t, f, g);
      }
    }
    if k < |b| && !Covered(LayoutOf(t), k) {
      OutsideIsDelimiter(t, k);
    }
  }

  /** The authority of an accepted buffer holds at most one `@`. */
  lemma AtMostOneAt(t: Target, connect: bool, i: nat, j: nat)
    requires Valid(t, connect) && !t.Relative?
    requires i < j < |PrintAuthority(t.authority)|
    ensures !(PrintAuthority(t.authority)[i] == '@' && PrintAuthority(t.authority)[j] == '@')
  {
    AuthorityTextIsPrint(t.authority);
    ValidAuthorityIsComplete(t.authority);
    HostPass.HostWithinServer(PartsOf(t.authority), t.authority.userinfo.Some?);
  }

  // ----- CONNECT

  /** CONNECT requests are meant to hold a host and a port only. */
  ghost predicate IsHostPort(b: string) {
    exists h, p :: ValidHost(h) && p != "" && All(Digits, p) && b == PrintHost(h) + ":" + p
  }

  lemma HostPortHasNoMark(h: UrlGrammar.Host, p: string)
    requires ValidHost(h) && All(Digits, p)
    ensures '@' !in PrintHost(h) + ":" + p && '?' !in PrintHost(h) + ":" + p
  {
    assert '@' !in HostName(h) && '?' !in HostName(h);
    assert '@' !in PrintHost(h) && '?' !in PrintHost(h);
  }

  lemma MarksPrinted(t: Target)
    requires Valid(t, true)
    ensures t.authority.userinfo.Some? ==> '@' in Print(t)
    ensures t.tail.query.Some? ==> '?' in Print(t)
  {
    if t.authority.userinfo.Some? {
      assert Print(t)[0] == '@';
    }
    if t.tail.query.Some? {
      assert Print(t)[|PrintAuthority(t.authority)|] == '?';
    }
  }

  lemma BareConnect(t: Target)
    requires Valid(t, true) && t.authority.userinfo.None? && t.tail.query.None?
    ensures Print(t) == PrintHost(t.authority.host) + ":" + t.authority.port.value
  {
    assert PrintTail(t.tail) == "";
  }

  lemma ConnectTree(t: Target)
    requires Valid(t, true)
    ensures IsHostPort(Print(t)) <==> '@' !in Print(t) && '?' !in Print(t)
  {
    var b := Print(t);
    if '@' !in b && '?' !in b {
      MarksPrinted(t);
      BareConnect(t);
    }
    forall h, p | ValidHost(h) && p != "" && All(Digits, p) && b == PrintHost(h) + ":" + p
      ensures '@' !in b && '?' !in b
    {
      HostPortHasNoMark(h, p);
    }
  }

  /** Exactly the accepted CONNECT buffers without `@` and `?` are a host and a port. */
  lemma ConnectExactly(b: string)
    requires Parse(b, true).Some?
    ensures IsHostPort(b) <==> '@' !in b && '?' !in b
  {
    var t := Parse(b, true).value;
    ParseExact(b, t, true);
    ConnectTree(t);
  }

  lemma DecimalOne()
    ensures Decimal("1") == 1
  {
    assert Init("1") == "";
  }

  /** The tree of `@h:1`. */
  function EmptyUserinfo(): Target {
    Connect(Authority(Some(""), Plain("h"), Some("1")), Tail("", None, None))
  }

  lemma EmptyUserinfoText()
    ensures Print(EmptyUserinfo()) == "@h:1"
  {
    assert PrintAuthority(EmptyUserinfo().authority) == "@h:1";
  }

  lemma EmptyUserinfoValid()
    ensures Valid(EmptyUserinfo(), true)
  {
    DecimalOne();
  }

  /** Every CONNECT buffer with an empty userinfo is accepted, and none is a host and port. */
  lemma UserinfoIsMore(t: Target)
    requires Valid(t, true) && t.authority.userinfo.Some?
    ensures Parse(Print(t), true) == Some(t) && !IsHostPort(Print(t))
  {
    ParseExact(Print(t), t, true);
    MarksPrinted(t);
    ConnectTree(t);
  }

  /** The parser accepts `@h:1`, which is no host and port. */
  lemma ConnectAcceptsMore()
    ensures Print(EmptyUserinfo()) == "@h:1"
    ensures var t := EmptyUserinfo();
            Parse(Print(t), true) == Some(t) && !IsHostPort(Print(t))
  {
    EmptyUserinfoText();
    EmptyUserinfoValid();
    UserinfoIsMore(EmptyUserinfo());
  }
}
