/** Ready in terms of the operator's own translation of specs into Helm values. */
module PlatformValues {
  import opened HelmMeaning
  import opened HelmValues
  import opened PlatformProtocol
  import PlatformResults

  // translate gives two specs the same values exactly when canonical makes them one.
  ghost predicate IsExact(translate: PlatformSpec -> Value, canonical: PlatformSpec -> PlatformSpec) {
    forall a, b :: translate(a) == translate(b) <==> canonical(a) == canonical(b)
  }

  lemma TranslateIsExact()
    ensures IsExact(Translate, Canonical)
  {
    forall a, b ensures Translate(a) == Translate(b) <==> Canonical(a) == Canonical(b) { TranslationIsExact(a, b); }
  }

  /** For an exact translation, such as the operator's own: a stored Ready means that the deployed values are those of
      the stored spec exactly when it and the spec first fetched agree on everything that is written into the values;
      and so for the generation reported, unless an earlier object's reconcile reported it. */
  lemma ReadyUpToCanonicalSpecs(translate: PlatformSpec -> Value, canonical: PlatformSpec -> PlatformSpec,
                                spec: PlatformSpec, actions: seq<Action>)
    requires IsExact(translate, canonical)
    ensures var s := Run(translate, spec, actions);
            s.store.Some? && s.store.value.status.phase == Ready ==>
              var g := s.store.value.status.observedGeneration;
              && (Deploys(s.helm, translate(s.store.value.spec))
                  <==> canonical(s.h.served) == canonical(s.store.value.spec))
              && (!s.h.basisStale ==>
                    && 1 <= s.h.basis <= g <= |s.h.specs|
                    && (Deploys(s.helm, translate(s.h.specs[g - 1]))
                        <==> canonical(s.h.specs[s.h.basis - 1]) == canonical(s.h.specs[g - 1])))
  {
    PlatformResults.ReadyMeansDeployed(translate, spec, actions);
    PlatformResults.ReadyDeploysTheFetchedSpec(translate, spec, actions);
  }

  /** So for the operator itself. */
  lemma OperatorReadyUpToCanonicalSpecs(spec: PlatformSpec, actions: seq<Action>)
    ensures var s := Run(Translate, spec, actions);
            s.store.Some? && s.store.value.status.phase == Ready ==>
              var g := s.store.value.status.observedGeneration;
              && (Deploys(s.helm, Translate(s.store.value.spec))
                  <==> Canonical(s.h.served) == Canonical(s.store.value.spec))
              && (!s.h.basisStale ==>
                    && 1 <= s.h.basis <= g <= |s.h.specs|
                    && (Deploys(s.helm, Translate(s.h.specs[g - 1]))
                        <==> Canonical(s.h.specs[s.h.basis - 1]) == Canonical(s.h.specs[g - 1])))
  {
    TranslateIsExact();
    ReadyUpToCanonicalSpecs(Translate, Canonical, spec, actions);
  }
}
