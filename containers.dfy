/** The runtime endpoints the coordinator addresses. The compose project names
    each container after its service and a 1-based service instance number;
    the model keeps only those two facts (the lookup of a container by name and
    its network hostname are external). */
module Containers {
  import opened Outcomes

  datatype Service = CatalogDatabase | CatalogProvider | CatalogConsumer

  /** A container of the compose project: its service and its service instance. */
  datatype Container = Container(service: Service, instance: int)

  /** The service instances of the catalog service consumer containers, in the
      order the project lists its containers. */
  function ConsumerInstances(containers: seq<Container>): (r: seq<int>)
    ensures |r| <= |containers|
    ensures forall n :: n in r <==> Container(CatalogConsumer, n) in containers
    decreases |containers|
  {
    if |containers| == 0 then []
    else
      var last := containers[|containers| - 1];
      var init := containers[..|containers| - 1];
      assert containers == init + [last];
      if last.service == CatalogConsumer then ConsumerInstances(init) + [last.instance]
      else ConsumerInstances(init)
  }

  /** The instances keep the container listing's order and its repeats: the
      instances of a concatenation are those of the first part followed by
      those of the second. */
  lemma {:induction false} ConsumerInstancesAppend(a: seq<Container>, b: seq<Container>)
    ensures ConsumerInstances(a + b) == ConsumerInstances(a) + ConsumerInstances(b)
    decreases |b|
  {
    if |b| == 0 {
      assert a + b == a;
    } else {
      var b' := b[..|b| - 1];
      assert (a + b)[..|a + b| - 1] == a + b';
      assert (a + b)[|a + b| - 1] == b[|b| - 1];
      ConsumerInstancesAppend(a, b');
    }
  }

  /** A single container contributes its instance exactly when it is a
      consumer; with `ConsumerInstancesAppend` this fixes the whole list. */
  lemma ConsumerInstancesSingleton(c: Container)
    ensures ConsumerInstances([c]) == if c.service == CatalogConsumer then [c.instance] else []
  {
  }
}
