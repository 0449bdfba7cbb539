/** The sticker catalogue (app/lib/animals.ts): a constant list searched by id. */
module Animals {
  import opened Wrappers
  import opened Seqs

  datatype AnimalSticker = AnimalSticker(id: string, name: string, src: string)

  function Asset(id: string): string { "/animals/" + id + ".png" }

  const AnimalStickers: seq<AnimalSticker> := [
    AnimalSticker("fox", "Fox", "/animals/fox.png"),
    AnimalSticker("wolf", "Wolf", "/animals/wolf.png"),
    AnimalSticker("squirrel", "Squirrel", "/animals/squirrel.png"),
    AnimalSticker("hamster", "Hamster", "/animals/hamster.png"),
    AnimalSticker("hedgehog", "Hedgehog", "/animals/hedgehog.png"),
    AnimalSticker("owl", "Owl", "/animals/owl.png")
  ]

  /**
   * `getAnimalById`: the first catalogue entry with this id; `None` exactly
   * when no entry has it.
   */
  function GetAnimalById(animalId: string): (r: Option<AnimalSticker>)
    ensures r.Some? ==> r.value in AnimalStickers && r.value.id == animalId
    ensures r.None? <==> forall i :: 0 <= i < |AnimalStickers| ==> AnimalStickers[i].id != animalId
  {
    Find(AnimalStickers, (a: AnimalSticker) => a.id == animalId)
  }

  /** The match returned is the earliest one in catalogue order. */
  lemma GetAnimalByIdFirst(animalId: string, i: int)
    requires 0 <= i < |AnimalStickers| && AnimalStickers[i].id == animalId
    requires forall j :: 0 <= j < i ==> AnimalStickers[j].id != animalId
    ensures GetAnimalById(animalId) == Some(AnimalStickers[i])
  {
    FindIsFirst(AnimalStickers, (a: AnimalSticker) => a.id == animalId, i);
  }

  /** Catalogue ids are distinct and every asset path is derived from its id. */
  lemma CatalogueWellFormed()
    ensures forall i, j :: 0 <= i < j < |AnimalStickers| ==> AnimalStickers[i].id != AnimalStickers[j].id
    ensures forall i :: 0 <= i < |AnimalStickers| ==> AnimalStickers[i].src == Asset(AnimalStickers[i].id)
  {
  }

  /** Since ids are distinct, every catalogue entry is found by its own id. */
  lemma EveryStickerFound(i: int)
    requires 0 <= i < |AnimalStickers|
    ensures GetAnimalById(AnimalStickers[i].id) == Some(AnimalStickers[i])
  {
    CatalogueWellFormed();
    GetAnimalByIdFirst(AnimalStickers[i].id, i);
  }
}
