/** The class repository the resolver queries through
    Global.getAnalysisCache().getClassAnalysis(XClass.class, d). */
module Repository {
  import opened Descriptors
  import opened Annotations

  /** MissingClassException, or any other CheckedAnalysisException. */
  datatype LookupError = MissingClass | AnalysisError

  datatype LookupResult = Found(xclass: XClass) | Failed(error: LookupError)

  /** The classes that can be loaded, and the classes whose loading fails
      with an analysis error other than a missing class. */
  datatype ClassRepository = ClassRepository(classes: map<ClassDescriptor, XClass>, broken: set<ClassDescriptor>)

  /** getClassAnalysis(XClass.class, d): a loadable class is found; a broken
      one fails with an analysis error; any other is missing. */
  function Lookup(repo: ClassRepository, d: ClassDescriptor): (r: LookupResult)
    ensures r.Found? <==> d in repo.classes
    ensures r.Found? ==> r.xclass == repo.classes[d]
    ensures r == Failed(AnalysisError) <==> d !in repo.classes && d in repo.broken
    ensures r == Failed(MissingClass) <==> d !in repo.classes && d !in repo.broken
  {
    if d in repo.classes then Found(repo.classes[d])
    else if d in repo.broken then Failed(AnalysisError)
    else Failed(MissingClass)
  }

  /** The same repository with the entry for d replaced by `entry`. */
  function WithEntry(repo: ClassRepository, d: ClassDescriptor, entry: LookupResult): (r: ClassRepository)
    ensures Lookup(r, d) == entry
    ensures forall e :: e != d ==> Lookup(r, e) == Lookup(repo, e)
  {
    match entry
    case Found(c) => ClassRepository(repo.classes[d := c], repo.broken - {d})
    case Failed(AnalysisError) => ClassRepository(repo.classes - {d}, repo.broken + {d})
    case Failed(MissingClass) => ClassRepository(repo.classes - {d}, repo.broken - {d})
  }
}
