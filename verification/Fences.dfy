/** Erasure fences: rows that forbid later writes about an erased subject.
    internal/infrastructure/persistence/database/integration/subject_write_fence.go */
module Fences {

  datatype Fence = Fence(workspaceId: string, kind: string, objectKey: string, resourceId: string)

  datatype Reference = Reference(kind: string, objectKey: string, id: string)

  /** The row predicate that every guarded UPDATE carries. */
  predicate RowWriteAllowed(fences: set<Fence>, table: string, workspaceId: string, id: string) {
    Fence(workspaceId, "row", table, id) !in fences
  }

  /** Some reference that names a resource is fenced. An empty id names nothing. */
  predicate SubjectErased(fences: set<Fence>, workspaceId: string, refs: seq<Reference>) {
    exists i :: 0 <= i < |refs| && Refers(fences, workspaceId, refs[i])
  }

  predicate Refers(fences: set<Fence>, workspaceId: string, ref: Reference) {
    ref.id != "" && Fence(workspaceId, ref.kind, ref.objectKey, ref.id) in fences
  }

  /** The read that precedes an insert: one disjunct per named reference. */
  method GuardSubjectWrite(fences: set<Fence>, workspaceId: string, refs: seq<Reference>) returns (erased: bool)
    ensures erased <==> SubjectErased(fences, workspaceId, refs)
  {
    erased := false;
    for i := 0 to |refs|
      invariant erased <==> SubjectErased(fences, workspaceId, refs[..i])
    {
      assert refs[..i + 1][i] == refs[i];
      assert forall j :: 0 <= j < i ==> refs[..i + 1][j] == refs[..i][j];
      if refs[i].id != "" && Fence(workspaceId, refs[i].kind, refs[i].objectKey, refs[i].id) in fences {
        erased := true;
      }
    }
    assert refs[..|refs|] == refs;
  }
}
