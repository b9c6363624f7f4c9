/** What the compare code asks of an org.eclipse.compare.ICompareStrategy object. */
module CompareStrategy {

  /**
   * A compare strategy object. `instance` tells apart distinct objects; the two flags are the
   * answers of areIgnoredRegionsReusable() and isEnabledInitially().
   */
  datatype Strategy = Strategy(instance: nat, ignoredRegionsReusable: bool, enabledInitially: bool)
}
