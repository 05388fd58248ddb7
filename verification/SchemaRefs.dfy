/** The schema documents that lookup and expansion share (internal/server/schema.go). */
module SchemaRefs {
  import opened JsonValues

  const REF_PREFIX := "#/components/schemas/"

  /** The component schemas of an OpenAPI document, by name. */
  type Schemas = map<string, Json>

  /** What both searches terminate by: fewer names are left to see. */
  lemma {:induction false} SubsetSmaller(some: set<string>, all: set<string>)
    requires some < all
    ensures |some| < |all|
  {
    var extra :| extra in all && extra !in some;
    assert all == some + {extra} + (all - some - {extra});
  }
}
