/**
 * The prompt composer: each profile restriction is looked up in the catalog
 * and rendered, and the result is placed with the user's name and notes into
 * the fixed system-prompt template.
 */
module Prompt {
  import opened Wrappers
  import opened Text
  import opened Profile

  /** One catalog entry: what the restriction is and what to avoid. */
  datatype RestrictionInfo = RestrictionInfo(description: string, commonIngredients: seq<string>)

  /** The static restriction catalog, keyed by restriction name; its contents are a parameter. */
  type Catalog = map<string, RestrictionInfo>

  const Bullet: string := "- "
  const DescriptionLabel: string := "\n  Descrição: "
  const IngredientsLabel: string := "\n  Ingredientes comuns para evitar: "
  const IngredientSeparator: string := ", "

  /** What follows "- name:" for a catalog key: the description line, then the ingredients line. */
  function Details(info: RestrictionInfo): (d: string)
    ensures |d| > 0 && d[0] == '\n'
  {
    DescriptionLabel + info.description + IngredientsLabel
      + Join(info.commonIngredients, IngredientSeparator)
  }

  /** The rendering of one restriction: full details for a catalog key, the bare name otherwise. */
  function FormatEntry(catalog: Catalog, r: string): string
  {
    if r in catalog then Bullet + r + ":" + Details(catalog[r])
    else Bullet + r
  }

  /** The rendered entries, one per restriction, in the profile's order. */
  function FormatEntries(catalog: Catalog, rs: seq<string>): (lines: seq<string>)
    ensures |lines| == |rs|
    ensures forall i :: 0 <= i < |rs| ==> lines[i] == FormatEntry(catalog, rs[i])
  {
    if |rs| == 0 then [] else [FormatEntry(catalog, rs[0])] + FormatEntries(catalog, rs[1..])
  }

  /** `_format_restrictions`: the rendered entries joined by newlines. */
  function FormatRestrictions(catalog: Catalog, rs: seq<string>): string
  {
    Join(FormatEntries(catalog, rs), "\n")
  }

  /**
   * Reads the restriction name back from a rendered entry, which is what makes
   * the rendering unambiguous: a line break means a catalog entry ending its
   * first line with ':', no line break means a bare name.
   */
  function EntryName(line: string): Option<string>
  {
    if |line| < 2 || line[..2] != Bullet then None
    else match FirstIndex(line, '\n')
      case None => Some(line[2..])
      case Some(k) => if k >= 3 && line[k - 1] == ':' then Some(line[2..k - 1]) else None
  }

  /**
   * For a name without line breaks, the rendering can be read back, and it
   * holds a line break exactly when the name is a catalog key.
   */
  lemma EntryRoundTrip(catalog: Catalog, r: string)
    requires '\n' !in r
    ensures EntryName(FormatEntry(catalog, r)) == Some(r)
    ensures '\n' in FormatEntry(catalog, r) <==> r in catalog
  {
    if r in catalog {
      KnownEntryRoundTrip(catalog, r);
    } else {
      var line := FormatEntry(catalog, r);
      assert line[..2] == Bullet;
      assert line[2..] == r;
      assert '\n' !in line;
    }
  }

  /** A bullet, a name free of line breaks, ':' and then a line break read back as that name. */
  lemma EntryNameOfFirstLine(r: string, rest: string)
    requires '\n' !in r && |rest| > 0 && rest[0] == '\n'
    ensures EntryName(Bullet + r + ":" + rest) == Some(r)
  {
    var head := Bullet + r + ":";
    var line := head + rest;
    assert '\n' !in head;
    FirstIndexAfter(head, rest, '\n');
    assert line[..2] == head[..2] == Bullet;
    assert line[|head| - 1] == head[|head| - 1] == ':';
    assert line[2..|head| - 1] == head[2..|head| - 1] == r;
  }

  lemma KnownEntryRoundTrip(catalog: Catalog, r: string)
    requires '\n' !in r && r in catalog
    ensures EntryName(FormatEntry(catalog, r)) == Some(r)
    ensures '\n' in FormatEntry(catalog, r)
  {
    var rest := Details(catalog[r]);
    EntryNameOfFirstLine(r, rest);
    assert FormatEntry(catalog, r)[|Bullet + r + ":"|] == '\n';
  }

  /** The details of an entry carry the description and every ingredient to avoid. */
  lemma DetailsMentions(info: RestrictionInfo)
    ensures Contains(Details(info), info.description)
    ensures forall j :: 0 <= j < |info.commonIngredients| ==>
      Contains(Details(info), info.commonIngredients[j])
  {
    var ingredients := Join(info.commonIngredients, IngredientSeparator);
    assert Contains(Details(info), info.description) by {
      ContainsSelf(info.description);
      ContainsInMiddle(DescriptionLabel, info.description, IngredientsLabel + ingredients,
        info.description);
      assert Details(info) == DescriptionLabel + info.description + (IngredientsLabel + ingredients);
    }
    forall j | 0 <= j < |info.commonIngredients|
      ensures Contains(Details(info), info.commonIngredients[j])
    {
      JoinContainsEach(info.commonIngredients, IngredientSeparator, j);
      ContainsInSuffix(DescriptionLabel + info.description + IngredientsLabel, ingredients,
        info.commonIngredients[j]);
    }
  }

  /** A catalog key's entry carries its description and every ingredient to avoid. */
  lemma EntryDetails(catalog: Catalog, r: string)
    requires r in catalog
    ensures Contains(FormatEntry(catalog, r), catalog[r].description)
    ensures forall j :: 0 <= j < |catalog[r].commonIngredients| ==>
      Contains(FormatEntry(catalog, r), catalog[r].commonIngredients[j])
  {
    var info := catalog[r];
    var head := Bullet + r + ":";
    assert FormatEntry(catalog, r) == head + Details(info);
    DetailsMentions(info);
    ContainsInSuffix(head, Details(info), info.description);
    forall j | 0 <= j < |info.commonIngredients|
      ensures Contains(FormatEntry(catalog, r), info.commonIngredients[j])
    {
      ContainsInSuffix(head, Details(info), info.commonIngredients[j]);
    }
  }

  /**
   * The rendered block names every restriction (as a bullet) and, for catalog
   * keys, carries the description and every ingredient to avoid.
   */
  lemma FormatRestrictionsMentions(catalog: Catalog, rs: seq<string>, i: int)
    requires 0 <= i < |rs|
    ensures Contains(FormatRestrictions(catalog, rs), Bullet + rs[i])
    ensures rs[i] in catalog ==> Contains(FormatRestrictions(catalog, rs), catalog[rs[i]].description)
    ensures rs[i] in catalog ==> forall j :: 0 <= j < |catalog[rs[i]].commonIngredients| ==>
      Contains(FormatRestrictions(catalog, rs), catalog[rs[i]].commonIngredients[j])
  {
    var block := FormatRestrictions(catalog, rs);
    var entry := FormatEntry(catalog, rs[i]);
    assert Contains(block, entry) by {
      JoinContainsEach(FormatEntries(catalog, rs), "\n", i);
    }
    assert Contains(block, Bullet + rs[i]) by {
      EntryStartsWithBullet(catalog, rs[i]);
      ContainsTransitive(block, entry, Bullet + rs[i]);
    }
    if rs[i] in catalog {
      var info := catalog[rs[i]];
      EntryDetails(catalog, rs[i]);
      ContainsTransitive(block, entry, info.description);
      forall j | 0 <= j < |info.commonIngredients|
        ensures Contains(block, info.commonIngredients[j])
      {
        ContainsTransitive(block, entry, info.commonIngredients[j]);
      }
    }
  }

  /** Every entry opens with the bullet and the restriction's name. */
  lemma EntryStartsWithBullet(catalog: Catalog, r: string)
    ensures OccursAt(FormatEntry(catalog, r), Bullet + r, 0)
  {
    if r in catalog {
      assert FormatEntry(catalog, r) == (Bullet + r) + (":" + Details(catalog[r]));
    }
  }

  const Placeholder: string := "Nenhuma observação adicional."

  /** `additional_notes or placeholder`: missing and empty notes both fall back. */
  function NotesText(notes: Option<string>): (t: string)
    ensures t != ""
    ensures notes.Some? && notes.value != "" ==> t == notes.value
    ensures notes == None || notes == Some("") ==> t == Placeholder
  {
    if notes.Some? && notes.value != "" then notes.value else Placeholder
  }

  const Greeting: string :=
    "Você é um assistente especializado em restrições alimentares, \n        conversando com "
  const RestrictionsHeading: string :=
    ". \n        \n        Restrições alimentares do usuário:\n        "
  const NotesHeading: string :=
    "\n        \n        Observações adicionais:\n        "
  /** The fixed guidelines and response-format block that closes the prompt. */
  const Guidelines: string :=
    "\n        \n        Diretrizes:"
    + "\n        1. Personalize todas as respostas considerando as restrições específicas."
    + "\n        2. Forneça informações detalhadas sobre substituições seguras de ingredientes."
    + "\n        3. Alerte sobre riscos de contaminação cruzada quando relevante."
    + "\n        4. Sugira alternativas nutricionalmente equivalentes quando possível."
    + "\n        5. Recomende consulta a profissionais de saúde para casos específicos."
    + "\n        6. Mantenha um tom amigável e empático, reconhecendo os desafios das restrições alimentares."
    + "\n        \n        Formato das respostas:"
    + "\n        - Inicie com um cumprimento personalizado"
    + "\n        - Forneça a informação principal de forma clara"
    + "\n        - Adicione alertas de segurança quando necessário"
    + "\n        - Conclua com sugestões práticas quando apropriado"

  /** The fixed pieces of the prompt template, between which the profile's data is placed. */
  datatype Template = Template(
    greeting: string,
    restrictionsHeading: string,
    notesHeading: string,
    closing: string)

  /** The template text of the assistant. */
  const SourceTemplate: Template := Template(Greeting, RestrictionsHeading, NotesHeading, Guidelines)

  /**
   * What the assistant is configured with: the restriction catalog and the
   * template text. The proofs hold for every configuration; the assistant's own
   * template is `SourceTemplate`.
   */
  datatype Config = Config(catalog: Catalog, template: Template)

  /** The template filled with a name, a restrictions block and a notes text. */
  function Fill(t: Template, name: string, block: string, notes: string): string
  {
    t.greeting + name + t.restrictionsHeading + block + t.notesHeading + notes + t.closing
  }

  /**
   * Whatever the template's text, the filled prompt opens with the greeting and
   * the name, and contains the name, everything in the block, and the notes.
   */
  lemma FillMentions(t: Template, name: string, block: string, notes: string)
    ensures t.greeting + name <= Fill(t, name, block, notes)
    ensures Contains(Fill(t, name, block, notes), name)
    ensures Contains(Fill(t, name, block, notes), notes)
    ensures forall x :: Contains(block, x) ==> Contains(Fill(t, name, block, notes), x)
  {
    var filled := Fill(t, name, block, notes);
    var beforeBlock := t.greeting + name + t.restrictionsHeading;
    var afterBlock := t.notesHeading + notes + t.closing;
    assert filled == (t.greeting + name) + (t.restrictionsHeading + block + afterBlock);
    assert OccursAt(filled, name, |t.greeting|);
    assert filled == beforeBlock + block + afterBlock;
    forall x | Contains(block, x)
      ensures Contains(filled, x)
    {
      ContainsInMiddle(beforeBlock, block, afterBlock, x);
    }
    assert filled == (beforeBlock + block + t.notesHeading) + notes + t.closing;
    ContainsSelf(notes);
    ContainsInMiddle(beforeBlock + block + t.notesHeading, notes, t.closing, notes);
  }

  /** `create_system_prompt`: the content of the system message that opens the transcript. */
  function SystemPrompt(config: Config, p: UserProfile): (prompt: string)
    ensures config.template.greeting + p.name <= prompt
  {
    var block := FormatRestrictions(config.catalog, p.dietaryRestrictions);
    var notes := NotesText(p.additionalNotes);
    FillMentions(config.template, p.name, block, notes);
    Fill(config.template, p.name, block, notes)
  }

  /**
   * The system prompt contains the user's name, a bullet for every restriction,
   * the catalog details of every known restriction, and the notes text.
   */
  lemma SystemPromptMentions(config: Config, p: UserProfile)
    ensures Contains(SystemPrompt(config, p), p.name)
    ensures forall i :: 0 <= i < |p.dietaryRestrictions| ==>
      Contains(SystemPrompt(config, p), Bullet + p.dietaryRestrictions[i])
    ensures forall r :: r in p.dietaryRestrictions && r in config.catalog ==>
      Contains(SystemPrompt(config, p), config.catalog[r].description)
    ensures forall r, j ::
      (r in p.dietaryRestrictions && r in config.catalog
        && 0 <= j < |config.catalog[r].commonIngredients|) ==>
      Contains(SystemPrompt(config, p), config.catalog[r].commonIngredients[j])
    ensures Contains(SystemPrompt(config, p), NotesText(p.additionalNotes))
  {
    var rs := p.dietaryRestrictions;
    var catalog := config.catalog;
    var block := FormatRestrictions(catalog, rs);
    FillMentions(config.template, p.name, block, NotesText(p.additionalNotes));
    forall i | 0 <= i < |rs|
      ensures Contains(block, Bullet + rs[i])
    {
      FormatRestrictionsMentions(catalog, rs, i);
    }
    forall r | r in rs && r in catalog
      ensures Contains(block, catalog[r].description)
      ensures forall j :: 0 <= j < |catalog[r].commonIngredients| ==>
        Contains(block, catalog[r].commonIngredients[j])
    {
      var i :| 0 <= i < |rs| && rs[i] == r;
      FormatRestrictionsMentions(catalog, rs, i);
    }
  }

  /** Non-empty notes appear verbatim; otherwise the placeholder appears. */
  lemma SystemPromptNotes(config: Config, p: UserProfile)
    ensures p.additionalNotes.Some? && p.additionalNotes.value != "" ==>
      Contains(SystemPrompt(config, p), p.additionalNotes.value)
    ensures p.additionalNotes == None || p.additionalNotes == Some("") ==>
      Contains(SystemPrompt(config, p), Placeholder)
  {
    SystemPromptMentions(config, p);
  }
}
