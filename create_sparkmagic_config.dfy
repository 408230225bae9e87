/** `CreateSparkMagicConfig`: the notebook's sparkmagic configuration is the published
    example configuration with every `localhost` replaced by the master node's private IP.
    The template is fetched once, when the object is created; writing the configuration
    reads it and changes nothing in the object. */
module SparkMagicConfig {
  import opened Python
  import opened Text

  /** Where the template is fetched from, and where the configuration is written. */
  const TemplateUrl := "https://raw.githubusercontent.com/jupyter-incubator/sparkmagic/master/sparkmagic/example_config.json"
  const ConfigPath := "/home/ec2-user/.sparkmagic/config.json"

  /** The text `re.sub` looks for in the template. */
  const Placeholder := "localhost"

  /** `re.sub` raises `TypeError` when the replacement is `None`, before it scans anything. */
  datatype SubstitutionError = NoReplacement

  /** `re.sub("localhost", ip, template)`: the pieces of the template between the
      occurrences of the placeholder, joined with the IP. */
  function Substitute(template: string, ip: string): (config: string)
    ensures config == JoinWith(Split(template, Placeholder), ip)
  {
    ReplaceAllIsJoin(template, Placeholder, ip);
    ReplaceAll(template, Placeholder, ip)
  }

  class CreateSparkMagicConfig {
    /** The template text, as the fetch returned it. */
    var configTemplate: string

    /** `CreateSparkMagicConfig()`; the fetched text is given as `fetched`. */
    constructor (fetched: string)
      ensures configTemplate == fetched
    {
      configTemplate := fetched;
    }

    /** `generate_config(master_private_ip)`. The file is opened for writing, which empties
        it, before the substitution; so with no IP the call raises and leaves the file
        empty. `written` is the file's content after the call. */
    method GenerateConfig(masterPrivateIp: Option<string>) returns (written: string, r: Result<bool, SubstitutionError>)
      ensures masterPrivateIp.Some? ==>
        written == Substitute(configTemplate, masterPrivateIp.value) && r == Success(true)
      ensures masterPrivateIp.None? ==> written == [] && r == Failure(NoReplacement)
    {
      written := [];
      if masterPrivateIp.None? {
        return written, Failure(NoReplacement);
      }
      written := Substitute(configTemplate, masterPrivateIp.value);
      r := Success(true);
    }
  }

  // ---------------------------------------------------------------------------------------
  // Properties of the substitution

  /** Joining the substituted pieces with the placeholder instead of the IP gives the
      template back, and no piece holds the placeholder: every occurrence was replaced, and
      the text between them is kept in order. `Text.SplitIsLeftmost` shows the occurrences
      are taken leftmost first and without overlap. */
  lemma SubstitutionPieces(template: string, ip: string)
    ensures var pieces := Split(template, Placeholder);
      && Substitute(template, ip) == JoinWith(pieces, ip)
      && JoinWith(pieces, Placeholder) == template
      && forall j :: 0 <= j < |pieces| ==> !Contains(pieces[j], Placeholder)
  {
    JoinSplit(template, Placeholder);
    SplitPiecesAreClean(template, Placeholder);
  }

  /** A template without `localhost` is written as it is. */
  lemma SubstituteWithoutPlaceholder(template: string, ip: string)
    requires !Contains(template, Placeholder)
    ensures Substitute(template, ip) == template
  {
    ReplaceAllNoMatch(template, Placeholder, ip);
  }

  /** Substituting `localhost` for itself changes nothing. */
  lemma SubstituteIdentity(template: string)
    ensures Substitute(template, Placeholder) == template
  {
    JoinSplit(template, Placeholder);
  }
}
