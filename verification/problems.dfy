/**
 * Problem details objects (RFC 7807, sections 3.1 and 3.2): the key-unique
 * mapping that is serialised as the response body, the extensions merged
 * into it, and the two ways of building it — by a registered handler and by
 * the fallback for an unregistered title.
 */
module Problems {
  import opened Platform

  /** A JSON value carried by a member. Strings and integers are what the
      registry itself writes; any other value an extension carries is passed
      through untouched and is represented by an opaque tag. */
  datatype Value = Str(s: string) | Int(n: int) | Other(tag: nat)

  /** A caller-supplied extension member (`Ext(key, value)`). */
  datatype Extension = Extension(key: string, value: Value)

  /** A problem details object. */
  type Problem = map<string, Value>

  /** What a registered title's handler captures: the title and the
      documentation URL computed when it was registered. */
  datatype Entry = Entry(title: string, docURL: string)

  /** What one dispatch writes: the status code and the problem object. */
  datatype Response = Response(status: int, body: Problem)

  const TypeKey := "type"
  const TitleKey := "title"
  const StatusKey := "status"
  const DetailKey := "detail"

  /** The members a registered handler always writes itself. */
  const Reserved: set<string> := {TypeKey, TitleKey, StatusKey, DetailKey}

  /** The keys the extensions mention. */
  ghost function Keys(exts: seq<Extension>): set<string> {
    set i | 0 <= i < |exts| :: exts[i].key
  }

  /** `v` is the value of the last extension whose key is `k`. */
  ghost predicate LastWith(exts: seq<Extension>, k: string, v: Value) {
    exists i :: 0 <= i < |exts| && exts[i].key == k && exts[i].value == v &&
      forall j :: i < j < |exts| ==> exts[j].key != k
  }

  /** The map obtained by inserting the extensions one after another. */
  ghost function Merge(exts: seq<Extension>): Problem {
    if exts == [] then map[]
    else
      var last := exts[|exts| - 1];
      Merge(exts[..|exts| - 1])[last.key := last.value]
  }

  /** Inserting the extensions in order keeps every key mentioned and, for
      each, the value of the last extension with that key. */
  lemma {:induction false} MergeLastWins(exts: seq<Extension>)
    ensures Merge(exts).Keys == Keys(exts)
    ensures forall k :: k in Merge(exts) ==> LastWith(exts, k, Merge(exts)[k])
  {
    if exts != [] {
      var n := |exts|;
      var init, last := exts[..n - 1], exts[n - 1];
      MergeLastWins(init);
      var m := Merge(exts);
      assert m == Merge(init)[last.key := last.value];
      assert Keys(exts) == Keys(init) + {last.key} by {
        forall k | k in Keys(exts) ensures k in Keys(init) + {last.key} {
          var i :| 0 <= i < n && exts[i].key == k;
          if i < n - 1 { assert init[i] == exts[i]; }
        }
        forall k | k in Keys(init) ensures k in Keys(exts) {
          var i :| 0 <= i < n - 1 && init[i].key == k;
          assert exts[i] == init[i];
        }
        assert exts[n - 1].key == last.key;
      }
      forall k | k in m ensures LastWith(exts, k, m[k]) {
        if k == last.key {
          assert exts[n - 1].key == k && exts[n - 1].value == m[k];
        } else {
          assert LastWith(init, k, Merge(init)[k]);
          var i :| 0 <= i < n - 1 && init[i].key == k && init[i].value == Merge(init)[k] &&
            forall j :: i < j < n - 1 ==> init[j].key != k;
          assert exts[i] == init[i];
          forall j | i < j < n ensures exts[j].key != k {
            if j < n - 1 { assert exts[j] == init[j]; }
          }
        }
      }
    }
  }

  /** The object a registered handler writes: the extensions, then its own
      `type`, `title`, `status` and `detail` over them. */
  ghost function RegisteredProblem(e: Entry, status: int, detail: string, exts: seq<Extension>): Problem {
    Merge(exts)[TypeKey := Str(e.docURL)][TitleKey := Str(e.title)]
      [StatusKey := Int(status)][DetailKey := Str(detail)]
  }

  /** The title the fallback writes: the status text when no title is given. */
  function FallbackTitle(lib: Lib, title: string, status: int): string {
    if title == "" then lib.statusText(status) else title
  }

  /** The object the fallback writes: the extensions, then `title`, `status`
      and `detail`, and no `type` of its own. */
  ghost function FallbackProblem(lib: Lib, title: string, status: int, detail: string, exts: seq<Extension>): Problem {
    Merge(exts)[TitleKey := Str(FallbackTitle(lib, title, status))]
      [StatusKey := Int(status)][DetailKey := Str(detail)]
  }

  /** A registered handler's object holds the extension keys and the four
      reserved members; the reserved members always carry the handler's own
      values, overriding any extension of the same name, and every other
      member carries the last extension value given for it. */
  lemma RegisteredProblemShape(e: Entry, status: int, detail: string, exts: seq<Extension>)
    ensures var p := RegisteredProblem(e, status, detail, exts);
      && p.Keys == Keys(exts) + Reserved
      && p[TypeKey] == Str(e.docURL)
      && p[TitleKey] == Str(e.title)
      && p[StatusKey] == Int(status)
      && p[DetailKey] == Str(detail)
      && forall k :: k in p && k !in Reserved ==> LastWith(exts, k, p[k])
  {
    MergeLastWins(exts);
  }

  /** The fallback's object holds the extension keys plus `title`, `status`
      and `detail`; it has a `type` member only when an extension supplied
      one, and then that extension's value survives. */
  lemma FallbackProblemShape(lib: Lib, title: string, status: int, detail: string, exts: seq<Extension>)
    ensures var p := FallbackProblem(lib, title, status, detail, exts);
      && p.Keys == Keys(exts) + {TitleKey, StatusKey, DetailKey}
      && (TypeKey in p <==> TypeKey in Keys(exts))
      && p[TitleKey] == Str(if title == "" then lib.statusText(status) else title)
      && p[StatusKey] == Int(status)
      && p[DetailKey] == Str(detail)
      && forall k :: k in p && k !in {TitleKey, StatusKey, DetailKey} ==> LastWith(exts, k, p[k])
  {
    MergeLastWins(exts);
  }

  /** Inserts the extensions into a fresh map, one after another. */
  method FillExtensions(exts: seq<Extension>) returns (p: Problem)
    ensures p == Merge(exts)
  {
    p := map[];
    for i := 0 to |exts|
      invariant p == Merge(exts[..i])
    {
      assert exts[..i + 1][..i] == exts[..i];
      p := p[exts[i].key := exts[i].value];
    }
    assert exts[..|exts|] == exts;
  }

  /** The handler a registration installs: writes the status and the
      problem object built from the captured title and documentation URL. */
  method Handle(e: Entry, status: int, detail: string, exts: seq<Extension>) returns (resp: Response)
    ensures resp.status == status
    ensures resp.body == RegisteredProblem(e, status, detail, exts)
  {
    var problem := FillExtensions(exts);
    problem := problem[TypeKey := Str(e.docURL)];
    problem := problem[TitleKey := Str(e.title)];
    problem := problem[StatusKey := Int(status)];
    problem := problem[DetailKey := Str(detail)];
    resp := Response(status, problem);
  }
}
