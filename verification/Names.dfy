/**
  The resource names of xds/utils.go and the store keys of xds/service.go and
  xds/endpoints.go. Listeners, routes, clusters and load assignments find each
  other by these strings only.
 */
module Names {

  function Digit(d: nat): char
    requires d < 10
  {
    "0123456789"[d]
  }

  function Digits(n: nat): string {
    if n < 10 then [Digit(n)] else Digits(n / 10) + [Digit(n % 10)]
  }

  /** strconv.Itoa: decimal rendering of any integer. */
  function Itoa(n: int): string {
    if n < 0 then "-" + Digits(-n) else Digits(n)
  }

  /** net.JoinHostPort: a host that contains a colon is put in brackets. */
  function JoinHostPort(host: string, port: string): string {
    if ':' in host then "[" + host + "]:" + port else host + ":" + port
  }

  function Key(service: string, namespace: string): string {
    service + "." + namespace
  }

  function ClusterName(name: string, namespace: string, port: int): string {
    name + "." + namespace + "." + Itoa(port)
  }

  function GlobalServiceDomain(name: string, namespace: string, port: int): string {
    JoinHostPort(name + "." + namespace, Itoa(port))
  }

  function XdstpPrefix(authority: string, kind: string): string {
    "xdstp://" + authority + "/" + kind + "/"
  }

  /** The names below take the authority the server runs under; "" asks for the plain form. */
  function ClusterNameFor(name: string, namespace: string, authority: string, port: int): string {
    if authority == "" then ClusterName(name, namespace, port)
    else XdstpPrefix(authority, "envoy.config.cluster.v3.Cluster") + ClusterName(name, namespace, port)
  }

  function LoadAssignmentNameFor(name: string, namespace: string, authority: string, port: int): string {
    if authority == "" then ClusterName(name, namespace, port)
    else XdstpPrefix(authority, "envoy.config.endpoint.v3.ClusterLoadAssignment") + ClusterName(name, namespace, port)
  }

  function ListenerNameFor(name: string, namespace: string, authority: string, port: int): string {
    if authority == "" then GlobalServiceDomain(name, namespace, port)
    else XdstpPrefix(authority, "envoy.config.listener.v3.Listener") + GlobalServiceDomain(name, namespace, port)
  }

  function RouteConfigNameFor(name: string, namespace: string, authority: string, port: int): string {
    if authority == "" then GlobalServiceDomain(name, namespace, port)
    else XdstpPrefix(authority, "envoy.config.route.v3.RouteConfiguration") + ClusterName(name, namespace, port)
  }

  /** Virtual hosts are named like the listener they are reached through. */
  function VirtualHostNameFor(name: string, namespace: string, authority: string, port: int): string {
    ListenerNameFor(name, namespace, authority, port)
  }

  // ---------------------------------------------------------------------
  // Decimal rendering

  lemma {:induction false} DigitsNonEmpty(n: nat)
    ensures |Digits(n)| >= 1
    ensures forall c | c in Digits(n) :: c in "0123456789"
  {
    if n >= 10 {
      DigitsNonEmpty(n / 10);
    }
  }

  /** The number a string of decimal digits stands for. */
  function Value(s: string): int {
    if s == "" then 0 else 10 * Value(s[..|s| - 1]) + (s[|s| - 1] as int - '0' as int)
  }

  /** Digits only, and no leading zero but for zero itself. */
  predicate IsDecimal(s: string) {
    s != "" && (forall c | c in s :: '0' <= c <= '9') && (|s| > 1 ==> s[0] != '0')
  }

  /** `s` is `n` in decimal notation, with a minus sign if it is negative. */
  predicate Renders(s: string, n: int) {
    if n < 0 then s != "" && s[0] == '-' && IsDecimal(s[1..]) && Value(s[1..]) == -n
    else IsDecimal(s) && Value(s) == n
  }

  lemma DigitValue(d: nat)
    requires d < 10
    ensures Digit(d) as int - '0' as int == d && '0' <= Digit(d) <= '9'
  {
    match d
    case 0 => case 1 => case 2 => case 3 => case 4 => case 5 => case 6 => case 7 => case 8 => case 9 =>
  }

  lemma {:induction false} DigitsReadBack(n: nat)
    ensures IsDecimal(Digits(n)) && Value(Digits(n)) == n && (n > 0 ==> Digits(n)[0] != '0')
  {
    DigitValue(n % 10);
    hide Digit;
    if n < 10 {
      assert Digits(n)[..0] == "";
    } else {
      DigitsReadBack(n / 10);
      assert Digits(n)[..|Digits(n)| - 1] == Digits(n / 10);
    }
  }

  /** Numbers are rendered in decimal notation: reading the digits back gives the number. */
  lemma ItoaRenders(n: int)
    ensures Renders(Itoa(n), n)
  {
    DigitsReadBack(if n < 0 then -n else n);
    assert n < 0 ==> Itoa(n)[1..] == Digits(-n);
  }

  /** One string never renders two numbers. */
  lemma RendersOne(s: string, m: int, n: int)
    requires Renders(s, m) && Renders(s, n)
    ensures m == n
  {
    assert s[0] in s;
  }

  /** A port or a version is recovered from its rendering, negative ones included. */
  lemma ItoaInjective(a: int, b: int)
    requires Itoa(a) == Itoa(b)
    ensures a == b
  {
    ItoaRenders(a);
    ItoaRenders(b);
    RendersOne(Itoa(a), a, b);
  }

  lemma ItoaShape(n: int)
    ensures Itoa(n) != ""
    ensures Itoa(n)[0] == '-' <==> n < 0
    ensures forall c | c in Itoa(n) :: c in "-0123456789"
  {
    DigitsNonEmpty(if n < 0 then -n else n);
    assert n >= 0 ==> Itoa(n)[0] in Digits(n);
  }

  /** Every name written out, for both name schemes. */
  lemma NamesAreSpelled(name: string, ns: string, authority: string, port: int) returns (p: string)
    ensures Renders(p, port) && Key(name, ns) == name + "." + ns
    ensures ClusterNameFor(name, ns, "", port) == LoadAssignmentNameFor(name, ns, "", port) == name + "." + ns + "." + p
    ensures var host := name + "." + ns;
            && ListenerNameFor(name, ns, "", port) == (if ':' in host then "[" + host + "]" else host) + ":" + p
            && ListenerNameFor(name, ns, "", port) == RouteConfigNameFor(name, ns, "", port) == GlobalServiceDomain(name, ns, port)
    ensures authority != "" ==>
              var cluster := name + "." + ns + "." + p;
              && ClusterNameFor(name, ns, authority, port)
                   == "xdstp://" + authority + "/" + "envoy.config.cluster.v3.Cluster" + "/" + cluster
              && LoadAssignmentNameFor(name, ns, authority, port)
                   == "xdstp://" + authority + "/" + "envoy.config.endpoint.v3.ClusterLoadAssignment" + "/" + cluster
              && RouteConfigNameFor(name, ns, authority, port)
                   == "xdstp://" + authority + "/" + "envoy.config.route.v3.RouteConfiguration" + "/" + cluster
              && ListenerNameFor(name, ns, authority, port)
                   == "xdstp://" + authority + "/" + "envoy.config.listener.v3.Listener" + "/" + GlobalServiceDomain(name, ns, port)
    ensures forall a :: VirtualHostNameFor(name, ns, a, port) == ListenerNameFor(name, ns, a, port)
  {
    p := Itoa(port);
    ItoaRenders(port);
    hide Itoa, Renders;
    var host := name + "." + ns;
    assert "[" + host + "]:" + p == "[" + host + "]" + ":" + p;
  }

  // ---------------------------------------------------------------------
  // Injectivity

  /** If what follows the last separator is free of it, the two parts are determined. */
  lemma SplitLast(a: string, b: string, c: string, d: string, sep: char)
    requires a + [sep] + b == c + [sep] + d
    requires sep !in b && sep !in d
    ensures a == c && b == d
  {
    var s, t := a + [sep] + b, c + [sep] + d;
    assert s[|a|] == sep && t[|c|] == sep;
    assert |a| == |c|;
    assert s[..|a|] == a && t[..|c|] == c;
    assert s[|a| + 1..] == b && t[|c| + 1..] == d;
  }

  /** Store keys determine the service when namespaces are DNS labels. */
  lemma KeyInjective(name: string, ns: string, name': string, ns': string)
    requires '.' !in ns && '.' !in ns'
    requires Key(name, ns) == Key(name', ns')
    ensures name == name' && ns == ns'
  {
    SplitLast(name, ns, name', ns', '.');
  }

  lemma ClusterNameInjective(name: string, ns: string, port: int, name': string, ns': string, port': int)
    requires '.' !in ns && '.' !in ns'
    requires ClusterName(name, ns, port) == ClusterName(name', ns', port')
    ensures name == name' && ns == ns' && port == port'
  {
    ItoaShape(port);
    ItoaShape(port');
    SplitLast(Key(name, ns), Itoa(port), Key(name', ns'), Itoa(port'), '.');
    KeyInjective(name, ns, name', ns');
    ItoaInjective(port, port');
  }

  /** Brackets do not blur hosts: a bracketed host contains a colon, an unbracketed one does not. */
  lemma GlobalServiceDomainInjective(name: string, ns: string, port: int, name': string, ns': string, port': int)
    requires '.' !in ns && '.' !in ns'
    requires GlobalServiceDomain(name, ns, port) == GlobalServiceDomain(name', ns', port')
    ensures name == name' && ns == ns' && port == port'
  {
    ItoaShape(port);
    ItoaShape(port');
    var h, h' := Key(name, ns), Key(name', ns');
    var left := if ':' in h then "[" + h + "]" else h;
    var left' := if ':' in h' then "[" + h' + "]" else h';
    assert GlobalServiceDomain(name, ns, port) == left + ":" + Itoa(port);
    assert GlobalServiceDomain(name', ns', port') == left' + ":" + Itoa(port');
    SplitLast(left, Itoa(port), left', Itoa(port'), ':');
    assert ':' in h ==> left[1..|left| - 1] == h && ':' in left;
    assert ':' in h' ==> left'[1..|left'| - 1] == h' && ':' in left';
    KeyInjective(name, ns, name', ns');
    ItoaInjective(port, port');
  }

  lemma PrefixCancel(p: string, a: string, b: string)
    requires p + a == p + b
    ensures a == b
  {
    assert (p + a)[|p|..] == a && (p + b)[|p|..] == b;
  }

  /** Under one authority each of the four kinds of name determines service, namespace and port. */
  lemma NamesInjective(name: string, ns: string, port: int, name': string, ns': string, port': int, authority: string)
    requires '.' !in ns && '.' !in ns'
    requires || ClusterNameFor(name, ns, authority, port) == ClusterNameFor(name', ns', authority, port')
             || LoadAssignmentNameFor(name, ns, authority, port) == LoadAssignmentNameFor(name', ns', authority, port')
             || ListenerNameFor(name, ns, authority, port) == ListenerNameFor(name', ns', authority, port')
             || RouteConfigNameFor(name, ns, authority, port) == RouteConfigNameFor(name', ns', authority, port')
    ensures name == name' && ns == ns' && port == port'
  {
    var c, c' := ClusterName(name, ns, port), ClusterName(name', ns', port');
    var d, d' := GlobalServiceDomain(name, ns, port), GlobalServiceDomain(name', ns', port');
    if authority != "" {
      if ClusterNameFor(name, ns, authority, port) == ClusterNameFor(name', ns', authority, port') {
        PrefixCancel(XdstpPrefix(authority, "envoy.config.cluster.v3.Cluster"), c, c');
      } else if LoadAssignmentNameFor(name, ns, authority, port) == LoadAssignmentNameFor(name', ns', authority, port') {
        PrefixCancel(XdstpPrefix(authority, "envoy.config.endpoint.v3.ClusterLoadAssignment"), c, c');
      } else if ListenerNameFor(name, ns, authority, port) == ListenerNameFor(name', ns', authority, port') {
        PrefixCancel(XdstpPrefix(authority, "envoy.config.listener.v3.Listener"), d, d');
      } else {
        PrefixCancel(XdstpPrefix(authority, "envoy.config.route.v3.RouteConfiguration"), c, c');
      }
    }
    if c == c' {
      ClusterNameInjective(name, ns, port, name', ns', port');
    } else {
      GlobalServiceDomainInjective(name, ns, port, name', ns', port');
    }
  }

  // ---------------------------------------------------------------------
  // Plain names and federated (xdstp) names

  predicate IsXdstp(name: string) {
    "xdstp://" <= name
  }

  lemma PrefixIsXdstp(authority: string, kind: string, rest: string)
    ensures IsXdstp(XdstpPrefix(authority, kind) + rest)
  {
    var scheme := "xdstp://";
    var n := XdstpPrefix(authority, kind) + rest;
    assert n == scheme + (authority + "/" + kind + "/" + rest);
    assert n[..|scheme|] == scheme;
  }

  lemma SlashFreeIsPlain(n: string)
    requires '/' !in n
    ensures !IsXdstp(n)
  {
    assert "xdstp://"[6] == '/';
  }

  /**
    With slash-free service and namespace names, a name is federated exactly when it was
    made for an authority: the plain pass and the federated pass of a snapshot never collide.
   */
  lemma XdstpDisjoint(name: string, ns: string, port: int, authority: string)
    requires '/' !in name && '/' !in ns
    ensures IsXdstp(ClusterNameFor(name, ns, authority, port)) <==> authority != ""
    ensures IsXdstp(LoadAssignmentNameFor(name, ns, authority, port)) <==> authority != ""
    ensures IsXdstp(ListenerNameFor(name, ns, authority, port)) <==> authority != ""
    ensures IsXdstp(RouteConfigNameFor(name, ns, authority, port)) <==> authority != ""
  {
    var c, d := ClusterName(name, ns, port), GlobalServiceDomain(name, ns, port);
    if authority == "" {
      ItoaShape(port);
      SlashFreeIsPlain(c);
      SlashFreeIsPlain(d);
    } else {
      PrefixIsXdstp(authority, "envoy.config.cluster.v3.Cluster", c);
      PrefixIsXdstp(authority, "envoy.config.endpoint.v3.ClusterLoadAssignment", c);
      PrefixIsXdstp(authority, "envoy.config.listener.v3.Listener", d);
      PrefixIsXdstp(authority, "envoy.config.route.v3.RouteConfiguration", c);
    }
  }

  // ---------------------------------------------------------------------
  // The rewrite of xds/dummy.go

  /** strings.Replace(s, ":", ".", 1) */
  function ReplaceFirstColon(s: string): string {
    if s == "" then ""
    else if s[0] == ':' then "." + s[1..]
    else [s[0]] + ReplaceFirstColon(s[1..])
  }

  lemma {:induction false} ReplaceFirstColonAt(a: string, b: string)
    requires ':' !in a
    ensures ReplaceFirstColon(a + ":" + b) == a + "." + b
  {
    var s := a + ":" + b;
    if a != "" {
      assert s[1..] == a[1..] + ":" + b;
      ReplaceFirstColonAt(a[1..], b);
    } else {
      assert s[1..] == b;
    }
  }

  lemma {:induction false} ReplaceNoColon(s: string)
    requires ':' !in s
    ensures ReplaceFirstColon(s) == s
  {
    if s != "" {
      ReplaceNoColon(s[1..]);
      assert s == [s[0]] + s[1..];
    }
  }

  lemma {:induction false} ReplaceFirstColonLength(s: string)
    ensures |ReplaceFirstColon(s)| == |s|
  {
    if s != "" {
      ReplaceFirstColonLength(s[1..]);
    }
  }

  /**
    The localhost mode turns a listener name into a cluster name by rewriting its first colon.
    The result is the real cluster name exactly for service hosts without a colon of their own.
   */
  lemma RewriteYieldsClusterName(name: string, ns: string, port: int)
    ensures ReplaceFirstColon(GlobalServiceDomain(name, ns, port)) == ClusterName(name, ns, port)
            <==> ':' !in name && ':' !in ns
  {
    var host := Key(name, ns);
    assert ':' in host <==> ':' in name || ':' in ns by {
      assert forall i | 0 <= i < |name| :: host[i] == name[i];
      assert forall i | 0 <= i < |ns| :: host[|name| + 1 + i] == ns[i];
    }
    if ':' in host {
      ReplaceFirstColonLength(GlobalServiceDomain(name, ns, port));
    } else {
      ReplaceFirstColonAt(host, Itoa(port));
    }
  }
}
